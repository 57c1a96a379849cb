/** Strong convergence: any number of peers exchanging records, whole states and deltas over a
    network that loses, duplicates, delays, reorders and misdelivers mail, with an outsider
    posting whatever it likes. */
module Convergence {
  import opened Types
  import opened Finite
  import opened State
  import opened Algebra
  import opened Sync

  /** What travels. `knows` is history: what its sender had received when it was posted. */
  datatype Mail =
    | Full(state: Records, knows: set<Record>)
    | Hello(owner: nat, held: Records)
    | Diff(to: Option<nat>, delta: seq<Record>, knows: set<Record>)

  /** `received[i]` is history: every record peer `i` was given, directly or through others. */
  datatype Net = Net(states: seq<Records>, received: seq<set<Record>>, mail: seq<Mail>)

  datatype Event =
    | Insert(peer: nat, rec: Record)
    | PostState(peer: nat)
    | PostSummary(peer: nat)
    | PostDelta(peer: nat, hello: nat, delta: seq<Record>)
    | ForgeState(state: Records)
    | ForgeDelta(delta: seq<Record>)
    | Deliver(peer: nat, letter: nat)

  ghost predicate Enabled(g: Game, net: Net, e: Event) {
    match e
    case Insert(p, _) => p < |net.states|
    case PostState(p) => p < |net.states|
    case PostSummary(p) => p < |net.states|
    case PostDelta(p, k, delta) =>
      && p < |net.states| && k < |net.mail| && net.mail[k].Hello?
      && IsDelta(g, net.states[p], Summarized(g, net.mail[k].held), delta)
    case ForgeState(m) => Keyed(g, m)
    case ForgeDelta(_) => true
    case Deliver(p, k) => p < |net.states| && k < |net.mail| && !net.mail[k].Hello?
  }

  ghost function Gained(p: nat, letter: Mail): set<Record>
    requires !letter.Hello?
  {
    match letter
    case Full(_, knows) => knows
    case Diff(to, delta, knows) => if to == Some(p) then knows else Members(delta)
  }

  ghost function Step(g: Game, net: Net, e: Event): Net
    requires Enabled(g, net, e) && |net.states| == |net.received|
  {
    match e
    case Insert(p, rec) =>
      net.(states := net.states[p := Applied(g, net.states[p], [rec])],
           received := net.received[p := net.received[p] + {rec}])
    case PostState(p) => net.(mail := net.mail + [Full(net.states[p], net.received[p])])
    case PostSummary(p) => net.(mail := net.mail + [Hello(p, net.states[p])])
    case PostDelta(p, k, delta) =>
      net.(mail := net.mail + [Diff(Some(net.mail[k].owner), delta, net.received[p])])
    case ForgeState(m) => net.(mail := net.mail + [Full(m, m.Values)])
    case ForgeDelta(delta) => net.(mail := net.mail + [Diff(None, delta, {})])
    case Deliver(p, k) =>
      var next := match net.mail[k]
        case Full(m, _) => Merged(g, net.states[p], m)
        case Diff(_, delta, _) => Applied(g, net.states[p], delta);
      net.(states := net.states[p := next],
           received := net.received[p := net.received[p] + Gained(p, net.mail[k])])
  }

  /** A letter carries what its history says it does. */
  ghost predicate Honest(g: Game, received: seq<set<Record>>, letter: Mail) {
    match letter
    case Full(m, knows) => Keyed(g, m) && (m.Values == knows || m == StateOf(g, knows))
    case Hello(owner, held) => owner < |received| && Keyed(g, held) && held.Values <= received[owner]
    case Diff(to, delta, knows) =>
      to.Some? ==>
        && to.value < |received|
        && Members(delta) <= StateOf(g, knows).Values <= received[to.value] + Members(delta)
  }

  ghost predicate Inv(g: Game, net: Net) {
    && |net.states| == |net.received|
    && (forall i | 0 <= i < |net.states| :: net.states[i] == StateOf(g, net.received[i]))
    && (forall k | 0 <= k < |net.mail| :: Honest(g, net.received, net.mail[k]))
  }

  ghost predicate Start(net: Net) {
    && |net.states| == |net.received|
    && (forall i | 0 <= i < |net.states| :: net.states[i] == map[] && net.received[i] == {})
    && net.mail == []
  }

  ghost predicate CanRun(g: Game, net: Net, events: seq<Event>)
    requires |net.states| == |net.received|
    decreases |events|
  {
    events != [] ==> Enabled(g, net, events[0]) && CanRun(g, Step(g, net, events[0]), events[1..])
  }

  ghost function Run(g: Game, net: Net, events: seq<Event>): Net
    requires |net.states| == |net.received| && CanRun(g, net, events)
    decreases |events|
  {
    if events == [] then net else Run(g, Step(g, net, events[0]), events[1..])
  }

  lemma StateOfNothing(g: Game)
    requires g.Sound()
    ensures StateOf(g, {}) == map[]
  {
  }

  /** One peer receives more; nobody's history shrinks, so every letter stays honest. */
  lemma Grow(g: Game, net: Net, p: nat, next: Records, more: set<Record>)
    requires Inv(g, net) && p < |net.states|
    requires next == StateOf(g, net.received[p] + more)
    ensures Inv(g, net.(states := net.states[p := next], received := net.received[p := net.received[p] + more]))
  {
    var received := net.received[p := net.received[p] + more];
    forall k | 0 <= k < |net.mail| ensures Honest(g, received, net.mail[k]) {
      assert Honest(g, net.received, net.mail[k]);
    }
  }

  lemma Post(g: Game, net: Net, letter: Mail)
    requires Inv(g, net) && Honest(g, net.received, letter)
    ensures Inv(g, net.(mail := net.mail + [letter]))
  {
  }

  /** A delta answers a summary that may be long out of date, and still tells its addressee
      everything the answering peer knew. */
  lemma AnswerIsComplete(g: Game, net: Net, p: nat, k: nat, delta: seq<Record>)
    requires g.Sound() && Inv(g, net) && Enabled(g, net, PostDelta(p, k, delta))
    ensures Honest(g, net.received, Diff(Some(net.mail[k].owner), delta, net.received[p]))
  {
    var held, state := net.mail[k].held, net.states[p];
    assert Honest(g, net.received, net.mail[k]);
    StateOfNormal(g, net.received[p]);
    forall r | r in state.Values ensures r in net.received[net.mail[k].owner] + Members(delta) {
      var id :| id in state && state[id] == r;
      NotOfferedIsHeld(g, held, state, id);
      if id in held && held[id] == r {
        assert r in held.Values;
      }
    }
    forall r | r in Members(delta) ensures r in state.Values {
      var i :| 0 <= i < |delta| && delta[i] == r;
      assert g.Id(delta[i]) in state;
    }
  }

  lemma DeliverFull(g: Game, recs: set<Record>, m: Records, knows: set<Record>)
    requires g.Sound() && Keyed(g, m) && (m.Values == knows || m == StateOf(g, knows))
    ensures Merged(g, StateOf(g, recs), m) == StateOf(g, recs + knows)
  {
    MergeIntoState(g, recs, m);
    if m == StateOf(g, knows) {
      LateEviction(g, recs, knows);
    }
  }

  lemma LateEviction(g: Game, recs: set<Record>, knows: set<Record>)
    requires g.Sound()
    ensures StateOf(g, recs + StateOf(g, knows).Values) == StateOf(g, recs + knows)
  {
    EarlyEviction(g, knows, recs);
    UnionCommutes(StateOf(g, knows).Values, recs);
    UnionCommutes(knows, recs);
  }

  lemma DeliverDiff(g: Game, recs: set<Record>, delta: seq<Record>, knows: set<Record>)
    requires g.Sound()
    requires Members(delta) <= StateOf(g, knows).Values <= recs + Members(delta)
    ensures Applied(g, StateOf(g, recs), delta) == StateOf(g, recs + knows)
  {
    ApplyToState(g, recs, delta);
    LateEviction(g, recs, knows);
    SandwichedUnion(recs, Members(delta), StateOf(g, knows).Values);
  }

  lemma SandwichedUnion<T>(a: set<T>, b: set<T>, c: set<T>)
    requires b <= c <= a + b
    ensures a + b == a + c
  {
  }

  lemma StepKeeps(g: Game, net: Net, e: Event)
    requires g.Sound() && Inv(g, net) && Enabled(g, net, e)
    ensures Inv(g, Step(g, net, e))
  {
    match e
    case Insert(p, rec) =>
      ApplyToState(g, net.received[p], [rec]);
      assert Members([rec]) == {rec};
      Grow(g, net, p, Applied(g, net.states[p], [rec]), {rec});
    case PostState(p) =>
      StateOfNormal(g, net.received[p]);
      Post(g, net, Full(net.states[p], net.received[p]));
    case PostSummary(p) =>
      StateOfNormal(g, net.received[p]);
      Post(g, net, Hello(p, net.states[p]));
    case PostDelta(p, k, delta) =>
      AnswerIsComplete(g, net, p, k, delta);
      Post(g, net, Diff(Some(net.mail[k].owner), delta, net.received[p]));
    case ForgeState(m) => Post(g, net, Full(m, m.Values));
    case ForgeDelta(delta) => Post(g, net, Diff(None, delta, {}));
    case Deliver(p, k) => DeliverKeeps(g, net, p, k);
  }

  lemma DeliverKeeps(g: Game, net: Net, p: nat, k: nat)
    requires g.Sound() && Inv(g, net) && Enabled(g, net, Deliver(p, k))
    ensures Inv(g, Step(g, net, Deliver(p, k)))
  {
    assert Honest(g, net.received, net.mail[k]);
    match net.mail[k]
    case Full(m, knows) =>
      DeliverFull(g, net.received[p], m, knows);
      Grow(g, net, p, Merged(g, net.states[p], m), knows);
    case Diff(to, delta, knows) =>
      if to == Some(p) {
        DeliverDiff(g, net.received[p], delta, knows);
        Grow(g, net, p, Applied(g, net.states[p], delta), knows);
      } else {
        ApplyToState(g, net.received[p], delta);
        Grow(g, net, p, Applied(g, net.states[p], delta), Members(delta));
      }
    case Hello(_, _) =>
  }

  lemma {:induction false} RunKeeps(g: Game, net: Net, events: seq<Event>)
    requires g.Sound() && Inv(g, net) && CanRun(g, net, events)
    ensures Inv(g, Run(g, net, events))
    decreases |events|
  {
    if events != [] {
      StepKeeps(g, net, events[0]);
      RunKeeps(g, Step(g, net, events[0]), events[1..]);
    }
  }

  /** After any run, every peer's state is the eviction of the smallest-signature join of all it
      has received, so two peers that received the same valid records hold the same state. */
  lemma StrongConvergence(g: Game, net: Net, events: seq<Event>, i: nat, j: nat)
    requires g.Sound() && Start(net) && CanRun(g, net, events)
    requires var end := Run(g, net, events); i < |end.states| && j < |end.states| == |end.received|
    ensures var end := Run(g, net, events);
            && end.states[i] == StateOf(g, end.received[i])
            && ((forall r | g.Verify(r) :: r in end.received[i] <==> r in end.received[j])
                ==> end.states[i] == end.states[j])
  {
    StateOfNothing(g);
    RunKeeps(g, net, events);
    var end := Run(g, net, events);
    var a, b := end.received[i], end.received[j];
    if forall r | g.Verify(r) :: r in a <==> r in b {
      JoinJoins(g, a);
      assert IsJoin(g, Join(g, a), b);
      IsTheJoin(g, Join(g, a), b);
    }
  }
}
