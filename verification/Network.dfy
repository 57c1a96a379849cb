/** The network as its clients see it (client/src/fake.rs): contract states, an ordered log of writes,
    and nodes that read both. A subscriber to a contract is in step with it when what the subscriber
    holds, joined with what it has still to be told, is what the contract's state amounts to. */
module Network {
  import opened Types
  import opened Finite
  import opened State
  import opened Algebra
  import opened Codecs
  import opened TopK
  import Contract
  import Sync

  /** What a subscriber is told: the state a PUT wrote, or the delta an UPDATE submitted. */
  datatype Broadcast = Whole(state: Records) | Part(delta: seq<Record>)

  datatype Entry = Entry(id: ContractId, what: Broadcast) {
    ghost function Tells(): set<Record> {
      match what
      case Whole(m) => m.Values
      case Part(delta) => Members(delta)
    }
  }

  class World {
    var contracts: map<ContractId, Records>
    var log: seq<Entry>

    constructor ()
      ensures contracts == map[] && log == []
    {
      contracts := map[];
      log := [];
    }

    method Put(id: ContractId, m: Records)
      modifies this
      ensures contracts == old(contracts)[id := m] && log == old(log) + [Entry(id, Whole(m))]
    {
      contracts := contracts[id := m];
      log := log + [Entry(id, Whole(m))];
    }

    /** Runs the contract on the current state; a refused delta changes nothing. */
    method Update(g: Game, id: ContractId, delta: seq<Record>) returns (ok: bool)
      requires g.Sound() && (id in contracts ==> Keyed(g, contracts[id]))
      modifies this
      ensures ok <==> id in old(contracts) && Contract.AllVerify(g, delta)
      ensures ok ==>
        && contracts == old(contracts)[id := StateOf(g, old(contracts)[id].Values + Members(delta))]
        && log == old(log) + [Entry(id, Part(delta))]
      ensures !ok ==> contracts == old(contracts) && log == old(log)
    {
      if id !in contracts {
        return false;
      }
      var base := EncodeState(g, contracts[id]);
      HoldsValues(g, contracts[id], base);
      HoldsDistinct(g, contracts[id], base);
      var data := [Contract.Delta(Contract.Encoded(delta))];
      ghost var fault := Contract.Fault(g, data[0]);
      var r := Contract.UpdateState(g, Contract.Encoded(base), data);
      OneDelta(g, delta);
      if r.Err? {
        return false;
      }
      contracts := contracts[id := r.value];
      log := log + [Entry(id, Part(delta))];
      return true;
    }
  }

  lemma HoldsDistinct(g: Game, m: Records, recs: seq<Record>)
    requires forall i, j | 0 <= i < j < |recs| :: g.Id(recs[i]) < g.Id(recs[j])
    ensures DistinctIds(g, recs)
  {
  }

  lemma OneDelta(g: Game, delta: seq<Record>)
    ensures var data := [Contract.Delta(Contract.Encoded(delta))];
            && Contract.CarriedBy(data) == Members(delta)
            && (Contract.NoFault(g, data) <==> Contract.AllVerify(g, delta))
  {
    var data := [Contract.Delta(Contract.Encoded(delta))];
    assert Contract.Carries(data[0]) == Members(delta);
    assert Contract.NoFault(g, data) <==> Contract.Fault(g, data[0]).None?;
  }

  /** Is entry `i` one a subscriber is told about? Subscribing is not retroactive. */
  predicate Heard(log: seq<Entry>, subscribed: map<ContractId, nat>, i: nat)
    requires i < |log|
  {
    log[i].id in subscribed && subscribed[log[i].id] <= i
  }

  /** Moving a cursor from `before` to `after` passes over what is not heard, and finds `e`. */
  ghost predicate Finds(log: seq<Entry>, subscribed: map<ContractId, nat>, before: nat, after: nat, e: Option<Entry>) {
    && before <= after <= |log|
    && (e.None? ==> after == |log|)
    && (e.Some? ==> before < after && e.value == log[after - 1] && Heard(log, subscribed, after - 1))
    && forall i | before <= i < (if e.Some? then after - 1 else after) :: !Heard(log, subscribed, i)
  }

  class FakeNode {
    const world: World
    var cursor: nat
    var subscribed: map<ContractId, nat>

    constructor (w: World)
      ensures world == w && cursor == 0 && subscribed == map[]
    {
      world := w;
      cursor := 0;
      subscribed := map[];
    }

    /** Nothing is left that this node would be told. */
    ghost predicate Drained()
      reads this, world
    {
      forall i | cursor <= i < |world.log| :: !Heard(world.log, subscribed, i)
    }

    method Get(id: ContractId, subscribe: bool) returns (state: Option<Records>)
      modifies if subscribe then {this} else {}
      ensures state == if id in world.contracts then Some(world.contracts[id]) else None
      ensures cursor == old(cursor)
      ensures subscribed == if subscribe && id !in old(subscribed) then old(subscribed)[id := |world.log|]
                            else old(subscribed)
    {
      if subscribe && id !in subscribed {
        subscribed := subscribed[id := |world.log|];
      }
      state := if id in world.contracts then Some(world.contracts[id]) else None;
    }

    /** The next heard entry at or after the cursor; the cursor never stalls on the others. */
    method NextUpdate() returns (e: Option<Entry>)
      requires cursor <= |world.log|
      modifies this`cursor
      ensures Finds(world.log, subscribed, old(cursor), cursor, e)
    {
      while cursor < |world.log|
        invariant old(cursor) <= cursor <= |world.log|
        invariant forall i | old(cursor) <= i < cursor :: !Heard(world.log, subscribed, i)
      {
        var at := cursor;
        cursor := cursor + 1;
        if Heard(world.log, subscribed, at) {
          return Some(world.log[at]);
        }
      }
      return None;
    }
  }

  // ---- What a contract's bytes amount to ----

  function Now(contracts: map<ContractId, Records>, id: ContractId): Records {
    if id in contracts then contracts[id] else map[]
  }

  /** The state the contract makes of what is stored under it, before it does anything with it. */
  ghost function Settled(g: Game, m: Records): Records {
    StateOf(g, m.Values)
  }

  /** It is what filtering gives, it is valid and within K, and it is the stored state itself exactly
      when that is. */
  lemma SettledIs(g: Game, m: Records)
    requires g.Sound() && Authentic(g, m)
    ensures Settled(g, m) == Filtered(g, m)
    ensures Normal(g, Settled(g, m))
    ensures Settled(g, m) == m <==> Normal(g, m)
  {
    Sync.FilteredIs(g, m);
    StateOfNormal(g, m.Values);
    if Normal(g, m) {
      NormalIsStateOf(g, m);
    }
  }

  // ---- Being in step ----

  ghost predicate WorldOk(g: Game, id: ContractId, contracts: map<ContractId, Records>, log: seq<Entry>) {
    && Authentic(g, Now(contracts, id))
    && (forall i | 0 <= i < |log| && log[i].id == id && log[i].what.Whole? :: Keyed(g, log[i].what.state))
  }

  /** The records in the log from `lo` on that concern `id`. */
  ghost function Pending(log: seq<Entry>, lo: nat, id: ContractId): set<Record> {
    set i, r | lo <= i < |log| && log[i].id == id && r in log[i].Tells() :: r
  }

  function Max(a: nat, b: nat): nat {
    if a < b then b else a
  }

  /** The contract contains all that this node has still to be told of it: nothing, if it has not
      subscribed. What was overwritten before it subscribed is no concern of its. */
  ghost predicate Caught(g: Game, id: ContractId, contracts: map<ContractId, Records>, log: seq<Entry>,
                         cursor: nat, subscribed: map<ContractId, nat>) {
    && cursor <= |log|
    && (id in subscribed ==>
        && subscribed[id] <= |log|
        && Contains(g, Now(contracts, id), Pending(log, Max(cursor, subscribed[id]), id)))
  }

  /** The held state is behind the contract by exactly the entries still to be delivered. */
  ghost predicate InStep(g: Game, id: ContractId, contracts: map<ContractId, Records>, log: seq<Entry>,
                         cursor: nat, subscribed: map<ContractId, nat>, held: Records) {
    && WorldOk(g, id, contracts, log)
    && id in subscribed && subscribed[id] <= |log| && cursor <= |log|
    && Normal(g, held)
    && StateOf(g, held.Values + Pending(log, Max(cursor, subscribed[id]), id)) == Settled(g, Now(contracts, id))
  }

  lemma ContainsGrows(g: Game, big: Records, next: Records, recs: set<Record>, more: set<Record>)
    requires g.Sound() && Contains(g, big, recs) && StateOf(g, next.Values) == StateOf(g, big.Values + more)
    ensures Contains(g, next, recs)
  {
    SameState(g, next.Values, big.Values + more, recs);
    SameState(g, big.Values + recs, big.Values, more);
    UnionSwaps(big.Values, more, recs);
  }

  lemma ContainsBoth(g: Game, big: Records, a: set<Record>, b: set<Record>)
    requires g.Sound() && Contains(g, big, a) && Contains(g, big, b)
    ensures Contains(g, big, a + b)
  {
    SameState(g, big.Values + a, big.Values, b);
    UnionAssociates(big.Values, a, b);
  }

  lemma ContainsNothing(g: Game, big: Records)
    ensures Contains(g, big, {})
  {
    UnionAbsorbs(big.Values, {});
  }

  lemma ContainsNew(g: Game, big: Records, next: Records, more: set<Record>)
    requires g.Sound() && StateOf(g, next.Values) == StateOf(g, big.Values + more)
    ensures Contains(g, next, more)
  {
    SameState(g, next.Values, big.Values + more, more);
    UnionAbsorbs(big.Values + more, more);
  }

  lemma ContainsItself(g: Game, m: Records)
    ensures Contains(g, m, m.Values)
  {
    UnionAbsorbs(m.Values, m.Values);
  }

  /** A subscriber in step is caught up in this sense, so it may stop and follow again. */
  lemma InStepIsCaught(g: Game, id: ContractId, contracts: map<ContractId, Records>, log: seq<Entry>,
                       cursor: nat, subscribed: map<ContractId, nat>, held: Records)
    requires g.Sound() && InStep(g, id, contracts, log, cursor, subscribed, held)
    ensures Caught(g, id, contracts, log, cursor, subscribed)
  {
    var now, pending := Now(contracts, id), Pending(log, Max(cursor, subscribed[id]), id);
    SameState(g, held.Values + pending, now.Values, pending);
    UnionAbsorbs(held.Values + pending, pending);
  }

  lemma PendingLast(log: seq<Entry>, lo: nat, id: ContractId)
    requires log != []
    ensures var n := |log| - 1;
            if lo <= n && log[n].id == id then Pending(log, lo, id) == Pending(log[..n], lo, id) + log[n].Tells()
            else Pending(log, lo, id) == Pending(log[..n], lo, id)
  {
    var n := |log| - 1;
    forall r | r in Pending(log[..n], lo, id) ensures r in Pending(log, lo, id) {
      var i :| lo <= i < n && log[..n][i].id == id && r in log[..n][i].Tells();
      assert log[i] == log[..n][i];
    }
    forall r | r in Pending(log, lo, id)
      ensures r in Pending(log[..n], lo, id) + if lo <= n && log[n].id == id then log[n].Tells() else {}
    {
      var i :| lo <= i < |log| && log[i].id == id && r in log[i].Tells();
      if i < n {
        assert log[..n][i] == log[i];
      }
    }
  }

  lemma PendingGrows(log: seq<Entry>, e: Entry, lo: nat, id: ContractId)
    requires lo <= |log|
    ensures Pending(log + [e], lo, id) ==
            if e.id == id then Pending(log, lo, id) + e.Tells() else Pending(log, lo, id)
  {
    PendingLast(log + [e], lo, id);
    assert (log + [e])[..|log|] == log;
  }

  /** Entries that are not delivered for `id` add nothing to what is pending for it. */
  lemma PendingSkips(log: seq<Entry>, lo: nat, hi: nat, id: ContractId)
    requires lo <= hi <= |log| && forall i | lo <= i < hi :: log[i].id != id
    ensures Pending(log, lo, id) == Pending(log, hi, id)
  {
  }

  lemma NotHeardSkips(log: seq<Entry>, subscribed: map<ContractId, nat>, lo: nat, hi: nat, id: ContractId)
    requires lo <= hi <= |log| && id in subscribed && subscribed[id] <= lo
    requires forall i | lo <= i < hi :: !Heard(log, subscribed, i)
    ensures Pending(log, lo, id) == Pending(log, hi, id)
  {
    forall i | lo <= i < hi ensures log[i].id != id {
      assert !Heard(log, subscribed, i);
    }
    PendingSkips(log, lo, hi, id);
  }

  lemma PendingFirst(log: seq<Entry>, lo: nat, id: ContractId)
    requires lo < |log| && log[lo].id == id
    ensures Pending(log, lo, id) == log[lo].Tells() + Pending(log, lo + 1, id)
  {
  }

  // ---- Nobody else's write is lost ----

  /** The contract takes an update: the log gains an entry the subscriber will be told. */
  lemma UpdateKeepsStep(g: Game, id: ContractId, contracts: map<ContractId, Records>, log: seq<Entry>,
                        cursor: nat, subscribed: map<ContractId, nat>, held: Records, delta: seq<Record>)
    requires g.Sound() && InStep(g, id, contracts, log, cursor, subscribed, held)
    ensures InStep(g, id, contracts[id := StateOf(g, Now(contracts, id).Values + Members(delta))],
                   log + [Entry(id, Part(delta))], cursor, subscribed, held)
  {
    var next := Updated(g, Now(contracts, id), delta);
    Arrival(g, id, contracts, log, cursor, subscribed, held, Entry(id, Part(delta)), next);
  }

  /** A PUT overwrites. The subscriber stays in step exactly when what is written already contains
      what it overwrites, as it does where the contract is absent or still empty. */
  lemma PutKeepsStepIff(g: Game, id: ContractId, contracts: map<ContractId, Records>, log: seq<Entry>,
                        cursor: nat, subscribed: map<ContractId, nat>, held: Records, m: Records)
    requires g.Sound() && InStep(g, id, contracts, log, cursor, subscribed, held) && Authentic(g, m)
    ensures InStep(g, id, contracts[id := m], log + [Entry(id, Whole(m))], cursor, subscribed, held) <==>
            Contains(g, m, Now(contracts, id).Values)
  {
    var now := Now(contracts, id);
    if Contains(g, m, now.Values) {
      UnionCommutes(now.Values, m.Values);
      Arrival(g, id, contracts, log, cursor, subscribed, held, Entry(id, Whole(m)), m);
    } else {
      PutIsHeard(g, now, log, Max(cursor, subscribed[id]), id, held, m);
      OutOfStep(g, id, contracts[id := m], log + [Entry(id, Whole(m))], cursor, subscribed, held, m);
    }
  }

  /** A first PUT always qualifies. */
  lemma FirstPutContains(g: Game, m: Records, now: Records)
    requires now == map[]
    ensures Contains(g, m, now.Values)
  {
    assert now.Values == {};
    ContainsNothing(g, m);
  }

  lemma OutOfStep(g: Game, id: ContractId, contracts: map<ContractId, Records>, log: seq<Entry>,
                  cursor: nat, subscribed: map<ContractId, nat>, held: Records, m: Records)
    requires Now(contracts, id) == m && id in subscribed
    requires StateOf(g, held.Values + Pending(log, Max(cursor, subscribed[id]), id)) != Settled(g, m)
    ensures !InStep(g, id, contracts, log, cursor, subscribed, held)
  {
  }

  /** Whatever a PUT writes, the subscriber ends up with it joined to what it overwrote. */
  lemma PutIsHeard(g: Game, now: Records, log: seq<Entry>, lo: nat, id: ContractId, held: Records, m: Records)
    requires g.Sound() && lo <= |log| && StateOf(g, held.Values + Pending(log, lo, id)) == Settled(g, now)
    ensures StateOf(g, held.Values + Pending(log + [Entry(id, Whole(m))], lo, id)) ==
            StateOf(g, m.Values + now.Values)
  {
    SameState(g, held.Values + Pending(log, lo, id), now.Values, m.Values);
    PendingGrows(log, Entry(id, Whole(m)), lo, id);
    UnionAssociates(held.Values, Pending(log, lo, id), m.Values);
    UnionCommutes(now.Values, m.Values);
  }

  lemma Arrival(g: Game, id: ContractId, contracts: map<ContractId, Records>, log: seq<Entry>,
                cursor: nat, subscribed: map<ContractId, nat>, held: Records, e: Entry, next: Records)
    requires g.Sound() && InStep(g, id, contracts, log, cursor, subscribed, held)
    requires e.id == id && (e.what.Whole? ==> Keyed(g, e.what.state)) && Authentic(g, next)
    requires Settled(g, next) == StateOf(g, Now(contracts, id).Values + e.Tells())
    ensures InStep(g, id, contracts[id := next], log + [e], cursor, subscribed, held)
  {
    var lo := Max(cursor, subscribed[id]);
    ArrivalWorld(g, id, contracts, log, e, next);
    SameState(g, held.Values + Pending(log, lo, id), Now(contracts, id).Values, e.Tells());
    PendingGrows(log, e, lo, id);
    UnionAssociates(held.Values, Pending(log, lo, id), e.Tells());
    assert Now(contracts[id := next], id) == next;
  }

  lemma ArrivalWorld(g: Game, id: ContractId, contracts: map<ContractId, Records>, log: seq<Entry>, e: Entry,
                     next: Records)
    requires g.Sound() && WorldOk(g, id, contracts, log)
    requires e.id == id && (e.what.Whole? ==> Keyed(g, e.what.state)) && Authentic(g, next)
    requires Settled(g, next) == StateOf(g, Now(contracts, id).Values + e.Tells())
    ensures WorldOk(g, id, contracts[id := next], log + [e])
  {
    assert Now(contracts[id := next], id) == next;
  }

  lemma ArrivalCaught(g: Game, id: ContractId, contracts: map<ContractId, Records>, log: seq<Entry>,
                      cursor: nat, subscribed: map<ContractId, nat>, e: Entry, next: Records)
    requires g.Sound() && Caught(g, id, contracts, log, cursor, subscribed)
    requires e.id == id && Settled(g, next) == StateOf(g, Now(contracts, id).Values + e.Tells())
    ensures Caught(g, id, contracts[id := next], log + [e], cursor, subscribed)
  {
    if id in subscribed {
      var now, lo := Now(contracts, id), Max(cursor, subscribed[id]);
      PendingGrows(log, e, lo, id);
      ContainsGrows(g, now, next, Pending(log, lo, id), e.Tells());
      ContainsNew(g, now, next, e.Tells());
      ContainsBoth(g, next, Pending(log, lo, id), e.Tells());
      assert Now(contracts[id := next], id) == next;
    }
  }

  lemma CaughtOther(g: Game, id: ContractId, contracts: map<ContractId, Records>, log: seq<Entry>,
                    cursor: nat, subscribed: map<ContractId, nat>, e: Entry, other: Records)
    requires Caught(g, id, contracts, log, cursor, subscribed) && e.id != id
    ensures Caught(g, id, contracts[e.id := other], log + [e], cursor, subscribed)
  {
    if id in subscribed {
      PendingGrows(log, e, Max(cursor, subscribed[id]), id);
      assert Now(contracts[e.id := other], id) == Now(contracts, id);
    }
  }

  /** Writes to other contracts pass by. */
  lemma OtherKeepsStep(g: Game, id: ContractId, contracts: map<ContractId, Records>, log: seq<Entry>,
                       cursor: nat, subscribed: map<ContractId, nat>, held: Records, e: Entry, other: Records)
    requires InStep(g, id, contracts, log, cursor, subscribed, held) && e.id != id
    ensures InStep(g, id, contracts[e.id := other], log + [e], cursor, subscribed, held)
  {
    PendingGrows(log, e, Max(cursor, subscribed[id]), id);
    WorldOkOther(g, id, contracts, log, e, other);
  }

  lemma WorldOkOther(g: Game, id: ContractId, contracts: map<ContractId, Records>, log: seq<Entry>, e: Entry,
                     other: Records)
    requires WorldOk(g, id, contracts, log) && e.id != id
    ensures WorldOk(g, id, contracts[e.id := other], log + [e])
  {
    assert Now(contracts[e.id := other], id) == Now(contracts, id);
  }

  // ---- Catching up ----

  /** What the answer to a subscribing GET makes of what was read before: all that the contract
      amounts to, nothing of it dropped and nothing over K kept. */
  lemma SubscribeMerge(g: Game, held: Records, now: Records)
    requires g.Sound() && Authentic(g, held) && Authentic(g, now) && Contains(g, now, held.Values)
    ensures Merged(g, held, now) == Settled(g, now)
    ensures now == map[] ==> held == map[]
  {
    MergeIsUnion(g, held, now);
    UnionCommutes(held.Values, now.Values);
    if now == map[] {
      OnlyNothing(g, held, now);
    }
  }

  /** The empty state contains no other. */
  lemma OnlyNothing(g: Game, held: Records, none: Records)
    requires g.Sound() && Authentic(g, held) && none == map[] && Contains(g, none, held.Values)
    ensures held == map[]
  {
    assert none.Values == {} && none.Values + held.Values == held.Values;
    NormalKeys(g, held);
    EvictedIsTop(g, held);
    StateOfNormal(g, {});
    assert StateOf(g, {}).Keys == {};
    if held.Keys != {} {
      LeastStays(g, held.Keys);
    }
  }

  lemma LeastStays(g: Game, s: set<RecordId>)
    requires s != {}
    ensures Top(g, s) != {}
  {
    var least := LeastExists(s);
    assert Rivals(g, s, least) == {};
    assert least in Top(g, s);
  }

  /** Subscribing is not retroactive, and a second time changes nothing. */
  lemma SubscribingCatches(g: Game, id: ContractId, contracts: map<ContractId, Records>, log: seq<Entry>,
                           cursor: nat, subscribed: map<ContractId, nat>)
    requires Caught(g, id, contracts, log, cursor, subscribed)
    ensures Caught(g, id, contracts, log, cursor, if id in subscribed then subscribed else subscribed[id := |log|])
  {
    if id !in subscribed {
      assert Pending(log, |log|, id) == {};
      ContainsNothing(g, Now(contracts, id));
    }
  }

  /** Holding what the contract amounts to is being in step with it. */
  lemma NowInStep(g: Game, id: ContractId, contracts: map<ContractId, Records>, log: seq<Entry>,
                  cursor: nat, subscribed: map<ContractId, nat>)
    requires g.Sound() && WorldOk(g, id, contracts, log)
    requires id in subscribed && Caught(g, id, contracts, log, cursor, subscribed)
    ensures InStep(g, id, contracts, log, cursor, subscribed, Settled(g, Now(contracts, id)))
  {
    var now, pending := Now(contracts, id), Pending(log, Max(cursor, subscribed[id]), id);
    StateOfNormal(g, now.Values);
    EarlyEviction(g, now.Values, pending);
  }

  /** For a node already subscribed that is not only enough but needed. */
  lemma StartsInStepIff(g: Game, id: ContractId, contracts: map<ContractId, Records>, log: seq<Entry>,
                        cursor: nat, subscribed: map<ContractId, nat>)
    requires g.Sound() && WorldOk(g, id, contracts, log)
    requires id in subscribed && subscribed[id] <= |log| && cursor <= |log|
    ensures InStep(g, id, contracts, log, cursor, subscribed, Settled(g, Now(contracts, id))) <==>
            Caught(g, id, contracts, log, cursor, subscribed)
  {
    if Caught(g, id, contracts, log, cursor, subscribed) {
      NowInStep(g, id, contracts, log, cursor, subscribed);
    } else if InStep(g, id, contracts, log, cursor, subscribed, Settled(g, Now(contracts, id))) {
      InStepIsCaught(g, id, contracts, log, cursor, subscribed, Settled(g, Now(contracts, id)));
    }
  }

  /** With nothing left to hear, what is held is what the contract amounts to. */
  lemma NothingPending(g: Game, id: ContractId, contracts: map<ContractId, Records>, log: seq<Entry>,
                       cursor: nat, subscribed: map<ContractId, nat>, held: Records)
    requires g.Sound() && InStep(g, id, contracts, log, cursor, subscribed, held)
    requires forall i | cursor <= i < |log| :: !Heard(log, subscribed, i)
    ensures held == Settled(g, Now(contracts, id)) && InStep(g, id, contracts, log, |log|, subscribed, held)
  {
    var lo := Max(cursor, subscribed[id]);
    NotHeardSkips(log, subscribed, lo, |log|, id);
    assert Pending(log, |log|, id) == {} && Pending(log, Max(|log|, subscribed[id]), id) == {};
    UnionAbsorbs(held.Values, {});
    NormalIsStateOf(g, held);
  }

  lemma PassedPending(log: seq<Entry>, before: nat, after: nat, subscribed: map<ContractId, nat>, id: ContractId)
    requires before < after <= |log| && id in subscribed && subscribed[id] <= |log|
    requires forall i | before <= i < after - 1 :: !Heard(log, subscribed, i)
    requires log[after - 1].id != id
    ensures Pending(log, Max(before, subscribed[id]), id) == Pending(log, Max(after, subscribed[id]), id)
  {
    var lo, hi := Max(before, subscribed[id]), Max(after, subscribed[id]);
    if lo < after - 1 {
      NotHeardSkips(log, subscribed, lo, after - 1, id);
    }
    if lo < hi {
      PendingSkips(log, Max(lo, after - 1), hi, id);
    }
  }

  /** An entry for some other contract went by. */
  lemma Passed(g: Game, id: ContractId, contracts: map<ContractId, Records>, log: seq<Entry>,
               before: nat, after: nat, subscribed: map<ContractId, nat>, held: Records)
    requires InStep(g, id, contracts, log, before, subscribed, held) && before < after <= |log|
    requires forall i | before <= i < after - 1 :: !Heard(log, subscribed, i)
    requires log[after - 1].id != id
    ensures InStep(g, id, contracts, log, after, subscribed, held)
  {
    PassedPending(log, before, after, subscribed, id);
  }

  lemma DeliveredPending(log: seq<Entry>, before: nat, after: nat, subscribed: map<ContractId, nat>, id: ContractId)
    requires before < after <= |log| && id in subscribed
    requires forall i | before <= i < after - 1 :: !Heard(log, subscribed, i)
    requires log[after - 1].id == id && Heard(log, subscribed, after - 1)
    ensures Pending(log, Max(before, subscribed[id]), id) ==
            log[after - 1].Tells() + Pending(log, Max(after, subscribed[id]), id)
  {
    NotHeardSkips(log, subscribed, Max(before, subscribed[id]), after - 1, id);
    PendingFirst(log, after - 1, id);
  }

  /** Merging or applying one entry. */
  lemma Heed(g: Game, held: Records, e: Entry)
    requires g.Sound() && Normal(g, held) && (e.what.Whole? ==> Keyed(g, e.what.state))
    ensures Normal(g, StateOf(g, held.Values + e.Tells()))
    ensures e.Tells() == {} ==> StateOf(g, held.Values + e.Tells()) == held
    ensures e.what.Whole? ==> Merged(g, held, e.what.state) == StateOf(g, held.Values + e.Tells())
    ensures e.what.Part? ==> Applied(g, held, e.what.delta) == StateOf(g, held.Values + e.Tells())
  {
    StateOfNormal(g, held.Values + e.Tells());
    if e.Tells() == {} {
      UnionAbsorbs(held.Values, {});
      NormalIsStateOf(g, held);
    }
    match e.what
    case Whole(m) => MergeIsUnion(g, held, m);
    case Part(delta) => ApplyIsUnion(g, held, delta);
  }

  /** Delivering the next entry moves exactly its records from pending to held. */
  lemma Delivered(g: Game, id: ContractId, contracts: map<ContractId, Records>, log: seq<Entry>,
                  before: nat, after: nat, subscribed: map<ContractId, nat>, held: Records)
    requires g.Sound() && InStep(g, id, contracts, log, before, subscribed, held) && before < after <= |log|
    requires forall i | before <= i < after - 1 :: !Heard(log, subscribed, i)
    requires log[after - 1].id == id && Heard(log, subscribed, after - 1)
    ensures InStep(g, id, contracts, log, after, subscribed, StateOf(g, held.Values + log[after - 1].Tells()))
  {
    var tells, rest := log[after - 1].Tells(), Pending(log, Max(after, subscribed[id]), id);
    DeliveredPending(log, before, after, subscribed, id);
    StateOfNormal(g, held.Values + tells);
    EarlyEviction(g, held.Values + tells, rest);
    UnionAssociates(held.Values, tells, rest);
  }

  /** What the next notification does, in each of the three cases. */
  lemma AfterNext(g: Game, id: ContractId, contracts: map<ContractId, Records>, log: seq<Entry>,
                  before: nat, after: nat, subscribed: map<ContractId, nat>, held: Records, e: Option<Entry>)
    requires g.Sound() && InStep(g, id, contracts, log, before, subscribed, held)
    requires Finds(log, subscribed, before, after, e)
    ensures e.None? ==> held == Settled(g, Now(contracts, id))
    ensures e.None? || e.value.id != id ==> InStep(g, id, contracts, log, after, subscribed, held)
    ensures e.Some? && e.value.id == id ==>
      && Normal(g, held) && (e.value.what.Whole? ==> Keyed(g, e.value.what.state))
      && InStep(g, id, contracts, log, after, subscribed, StateOf(g, held.Values + e.value.Tells()))
  {
    if e.None? {
      NothingPending(g, id, contracts, log, before, subscribed, held);
    } else if e.value.id != id {
      Passed(g, id, contracts, log, before, after, subscribed, held);
    } else {
      Delivered(g, id, contracts, log, before, after, subscribed, held);
    }
  }

  /** A subscription to anything else changes nothing here. */
  lemma SubscribingElsewhere(g: Game, id: ContractId, contracts: map<ContractId, Records>, log: seq<Entry>,
                             cursor: nat, before: map<ContractId, nat>, after: map<ContractId, nat>, held: Records)
    requires InStep(g, id, contracts, log, cursor, before, held)
    requires id in after && after[id] == before[id]
    ensures InStep(g, id, contracts, log, cursor, after, held)
  {
  }

  // ---- What others write ----

  /** What anyone else may do at any moment: PUT a state that contains the contract's, over K or not,
      update it, or write to some other contract. */
  datatype Write = Replace(m: Records) | Next(delta: seq<Record>) | Elsewhere(e: Entry, m: Records)

  ghost predicate Permitted(g: Game, id: ContractId, contracts: map<ContractId, Records>, w: Write) {
    match w
    case Replace(m) => Authentic(g, m) && Contains(g, m, Now(contracts, id).Values)
    case Next(_) => true
    case Elsewhere(e, _) => e.id != id
  }

  /** The world after a write by someone else; a refused delta changes nothing. */
  ghost function After(g: Game, id: ContractId, contracts: map<ContractId, Records>, log: seq<Entry>, w: Write)
    : (map<ContractId, Records>, seq<Entry>)
  {
    match w
    case Replace(m) => (contracts[id := m], log + [Entry(id, Whole(m))])
    case Next(delta) =>
      if id in contracts && Contract.AllVerify(g, delta) then
        (contracts[id := StateOf(g, contracts[id].Values + Members(delta))], log + [Entry(id, Part(delta))])
      else (contracts, log)
    case Elsewhere(e, m) => (contracts[e.id := m], log + [e])
  }

  lemma WriteKeepsStep(g: Game, id: ContractId, contracts: map<ContractId, Records>, log: seq<Entry>,
                       cursor: nat, subscribed: map<ContractId, nat>, held: Records, w: Write)
    requires g.Sound() && InStep(g, id, contracts, log, cursor, subscribed, held)
    requires Permitted(g, id, contracts, w)
    ensures var (contracts', log') := After(g, id, contracts, log, w);
            InStep(g, id, contracts', log', cursor, subscribed, held)
  {
    match w
    case Replace(m) => PutKeepsStepIff(g, id, contracts, log, cursor, subscribed, held, m);
    case Next(delta) => UpdateKeepsStep(g, id, contracts, log, cursor, subscribed, held, delta);
    case Elsewhere(e, m) => OtherKeepsStep(g, id, contracts, log, cursor, subscribed, held, e, m);
  }

  /** Before subscribing, the contract still contains what was read. */
  lemma WriteKeepsContained(g: Game, id: ContractId, contracts: map<ContractId, Records>, log: seq<Entry>,
                            held: Records, w: Write)
    requires g.Sound() && WorldOk(g, id, contracts, log) && Permitted(g, id, contracts, w)
    requires Contains(g, Now(contracts, id), held.Values)
    ensures var (contracts', log') := After(g, id, contracts, log, w);
            WorldOk(g, id, contracts', log') && Contains(g, Now(contracts', id), held.Values)
  {
    var now := Now(contracts, id);
    match w
    case Replace(m) =>
      UnionCommutes(now.Values, m.Values);
      ArrivalWorld(g, id, contracts, log, Entry(id, Whole(m)), m);
      ContainsGrows(g, now, m, held.Values, m.Values);
    case Next(delta) =>
      if id in contracts && Contract.AllVerify(g, delta) {
        var next := Updated(g, now, delta);
        ArrivalWorld(g, id, contracts, log, Entry(id, Part(delta)), next);
        ContainsGrows(g, now, next, held.Values, Members(delta));
      }
    case Elsewhere(e, m) => WorldOkOther(g, id, contracts, log, e, m);
  }

  lemma Updated(g: Game, now: Records, delta: seq<Record>) returns (next: Records)
    requires g.Sound()
    ensures next == StateOf(g, now.Values + Members(delta)) == Settled(g, next) && Authentic(g, next)
  {
    next := StateOf(g, now.Values + Members(delta));
    StateOfNormal(g, now.Values + Members(delta));
    NormalIsStateOf(g, next);
  }

  /** And it still contains what a node has yet to be told. */
  lemma WriteKeepsCaught(g: Game, id: ContractId, contracts: map<ContractId, Records>, log: seq<Entry>,
                         cursor: nat, subscribed: map<ContractId, nat>, w: Write)
    requires g.Sound() && Caught(g, id, contracts, log, cursor, subscribed) && Permitted(g, id, contracts, w)
    ensures var (contracts', log') := After(g, id, contracts, log, w);
            Caught(g, id, contracts', log', cursor, subscribed)
  {
    var now := Now(contracts, id);
    match w
    case Replace(m) =>
      UnionCommutes(now.Values, m.Values);
      ArrivalCaught(g, id, contracts, log, cursor, subscribed, Entry(id, Whole(m)), m);
    case Next(delta) =>
      if id in contracts && Contract.AllVerify(g, delta) {
        var next := Updated(g, now, delta);
        ArrivalCaught(g, id, contracts, log, cursor, subscribed, Entry(id, Part(delta)), next);
      }
    case Elsewhere(e, m) => CaughtOther(g, id, contracts, log, cursor, subscribed, e, m);
  }

  method IsAuthentic(g: Game, m: Records) returns (ok: bool)
    ensures ok <==> Authentic(g, m)
  {
    var valid := Contract.CheckAllValid(g, m);
    ok := valid && forall id | id in m :: g.Id(m[id]) == id;
  }

  /** Writes outside the assumption do not happen. */
  method MayPerform(g: Game, id: ContractId, contracts: map<ContractId, Records>, w: Write) returns (ok: bool)
    requires g.Sound() && Keyed(g, Now(contracts, id))
    ensures ok <==> Permitted(g, id, contracts, w)
  {
    ok := true;
    if w.Replace? {
      ok := IsAuthentic(g, w.m);
      if ok {
        ok := CheckContains(g, w.m, Now(contracts, id));
      }
    } else if w.Elsewhere? {
      ok := w.e.id != id;
    }
  }

  method CheckContains(g: Game, m: Records, other: Records) returns (ok: bool)
    requires g.Sound() && Authentic(g, m) && Keyed(g, other)
    ensures ok <==> Contains(g, m, other.Values)
  {
    MergeIsUnion(g, m, other);
    Sync.FilteredIs(g, m);
    var game := new GameState.Empty();
    game.records := m;
    var settled := game.FilterValid(g);
    game.Merge(g, other);
    ok := game.records == settled.records;
  }

  method Perform(g: Game, world: World, id: ContractId, w: Write)
    requires g.Sound() && Keyed(g, Now(world.contracts, id))
    modifies world
    ensures (world.contracts, world.log) == After(g, id, old(world.contracts), old(world.log), w)
  {
    match w {
      case Replace(m) => world.Put(id, m);
      case Next(delta) => var _ := world.Update(g, id, delta);
      case Elsewhere(e, m) =>
        world.contracts := world.contracts[e.id := m];
        world.log := world.log + [e];
    }
  }

  /** A contract that was absent, after its first PUT. */
  lemma FirstPutStarts(g: Game, id: ContractId, contracts: map<ContractId, Records>, log: seq<Entry>, first: Records)
    requires g.Sound() && Authentic(g, first) && id !in contracts && WorldOk(g, id, contracts, log)
    ensures WorldOk(g, id, contracts[id := first], log + [Entry(id, Whole(first))])
  {
    var none: Records := map[];
    FirstPutContains(g, first, Now(contracts, id));
    UnionCommutes(none.Values, first.Values);
    ArrivalWorld(g, id, contracts, log, Entry(id, Whole(first)), first);
  }
}
