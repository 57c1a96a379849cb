/** What a record must be to be held, and which of those are held, said of the records themselves
    (common/src/types.rs and common/src/state.rs). */
module Admission {
  import opened Types
  import opened Finite
  import opened TopK
  import opened State
  import opened Algebra
  import opened Finality
  import Convergence
  import Contract

  ghost predicate AllGenuine(g: Game, m: Records) {
    forall id | id in m :: g.Genuine(m[id])
  }

  lemma AllGenuineIsAllValid(g: Game, m: Records)
    ensures AllValid(g, m) <==> AllGenuine(g, m)
  {
    forall id | id in m ensures g.Verify(m[id]) <==> g.Genuine(m[id]) {
      GenuineIsVerified(g, m[id]);
    }
  }

  /** Nothing else ever gets in, whatever is merged or applied, from an empty state on. */
  lemma {:induction false} OnlyGenuineEnters(g: Game, m: Records, intakes: seq<Intake>)
    requires g.Sound() && Keyed(g, m) && AllGenuine(g, m)
    requires forall i | 0 <= i < |intakes| && intakes[i].Merging? :: Keyed(g, intakes[i].other)
    ensures Keyed(g, TakenAll(g, m, intakes)) && AllGenuine(g, TakenAll(g, m, intakes))
  {
    if intakes != [] {
      var n := |intakes| - 1;
      var before := TakenAll(g, m, intakes[..n]);
      OnlyGenuineEnters(g, m, intakes[..n]);
      AllGenuineIsAllValid(g, before);
      match intakes[n] {
        case Merging(other) =>
          MergeIsUnion(g, before, other);
          StateOfNormal(g, before.Values + other.Values);
        case Applying(delta) =>
          ApplyIsUnion(g, before, delta);
          StateOfNormal(g, before.Values + Members(delta));
      }
      AllGenuineIsAllValid(g, TakenAll(g, m, intakes));
    }
  }

  /** Over any network, forgers included, every peer holds genuine records only. */
  lemma PeersHoldGenuine(g: Game, net: Convergence.Net, events: seq<Convergence.Event>, i: nat)
    requires g.Sound() && Convergence.Start(net) && Convergence.CanRun(g, net, events)
    requires i < |Convergence.Run(g, net, events).states|
    ensures AllGenuine(g, Convergence.Run(g, net, events).states[i])
  {
    Convergence.StateOfNothing(g);
    Convergence.RunKeeps(g, net, events);
    var end := Convergence.Run(g, net, events);
    StateOfNormal(g, end.received[i]);
    AllGenuineIsAllValid(g, end.states[i]);
  }

  // ---- Which of them are held ----

  /** Two statements that compete: one player's, of one kind, at one index. */
  ghost predicate Compete(a: Statement, b: Statement) {
    && a.signer == b.signer
    && match a.body
       case Move(p, _, _) => b.body.Move? && b.body.ply == p
       case DrawOffer(p, _) => b.body.DrawOffer? && b.body.ply == p
       case DrawAccept(p, _) => b.body.DrawAccept? && b.body.ply == p
       case DrawClaim(p, _) => b.body.DrawClaim? && b.body.ply == p
       case Resign => false
  }

  ghost function RoomFor(s: Statement): nat {
    if s.body.Move? then 2 else 1
  }

  /** The smaller ids of competing statements among `ids`. */
  ghost function Ahead(g: Game, ids: set<RecordId>, id: RecordId): set<RecordId> {
    set j | j in ids && j < id && Compete(g.says(id), g.says(j))
  }

  /** Eviction keeps a resignation always, a move behind at most one smaller id of its slot, and any
      other statement only if it is the smallest. */
  lemma TopMeans(g: Game, ids: set<RecordId>, id: RecordId)
    ensures id in Top(g, ids) <==>
            id in ids && (g.says(id).body.Resign? || |Ahead(g, ids, id)| < RoomFor(g.says(id)))
  {
    if !g.says(id).body.Resign? {
      assert Ahead(g, ids, id) == Rivals(g, ids, id);
    }
  }

  /** The ids under which `recs` holds something genuine. */
  ghost function GenuineIds(g: Game, recs: set<Record>): set<RecordId> {
    set r | r in recs && g.Genuine(r) :: g.recordId(Statement(r.signer, r.body))
  }

  /** Of all that was ever received, the state holds exactly the genuine statements with room for them,
      each under its smallest genuine signature. */
  lemma StateMeans(g: Game, recs: set<Record>, id: RecordId)
    requires g.Sound()
    ensures id in StateOf(g, recs) <==>
            id in GenuineIds(g, recs)
            && (g.says(id).body.Resign? || |Ahead(g, GenuineIds(g, recs), id)| < RoomFor(g.says(id)))
    ensures id in StateOf(g, recs) ==>
      var held := StateOf(g, recs)[id];
      && held in recs && g.Genuine(held) && g.recordId(Statement(held.signer, held.body)) == id
      && forall r | r in recs && g.Genuine(r) && r.signer == held.signer && r.body == held.body :: held.sig <= r.sig
  {
    JoinJoins(g, recs);
    StateOfNormal(g, recs);
    GenuineAreJoined(g, recs);
    TopMeans(g, GenuineIds(g, recs), id);
    if id in StateOf(g, recs) {
      SmallestHeld(g, recs, id);
    }
  }

  lemma GenuineAreJoined(g: Game, recs: set<Record>)
    requires g.Sound()
    ensures Join(g, recs).Keys == GenuineIds(g, recs)
  {
    var m := Join(g, recs);
    JoinJoins(g, recs);
    forall id | id in m ensures id in GenuineIds(g, recs) {
      GenuineIsVerified(g, m[id]);
      assert g.recordId(Statement(m[id].signer, m[id].body)) == id;
    }
    forall r | r in recs && g.Genuine(r) ensures g.recordId(Statement(r.signer, r.body)) in m {
      GenuineIsVerified(g, r);
    }
  }

  lemma SmallestHeld(g: Game, recs: set<Record>, id: RecordId)
    requires g.Sound() && id in StateOf(g, recs)
    ensures var held := StateOf(g, recs)[id];
            && held in recs && g.Genuine(held) && g.recordId(Statement(held.signer, held.body)) == id
            && forall r | r in recs && g.Genuine(r) && r.signer == held.signer && r.body == held.body ::
                 held.sig <= r.sig
  {
    var m, held := Join(g, recs), StateOf(g, recs)[id];
    JoinJoins(g, recs);
    assert held == m[id] && g.Id(held) == id;
    GenuineIsVerified(g, held);
    forall r | r in recs && g.Genuine(r) && r.signer == held.signer && r.body == held.body ensures held.sig <= r.sig {
      GenuineIsVerified(g, r);
      assert g.Id(r) == id;
    }
  }

  // ---- The contract's door ----

  ghost predicate Decodes(g: Game, w: Contract.Wire<seq<Record>>) {
    match w
    case Zero => true
    case Garbage => false
    case Encoded(recs) => forall i, j | 0 <= i < j < |recs| :: SaysOfRecord(recs[i]) != SaysOfRecord(recs[j])
  }

  ghost function SaysOfRecord(r: Record): Statement {
    Statement(r.signer, r.body)
  }

  ghost predicate CarriesGenuine(g: Game, w: Contract.Wire<seq<Record>>) {
    w.Encoded? ==> forall i | 0 <= i < |w.value| :: g.Genuine(w.value[i])
  }

  ghost predicate GoodState(g: Game, w: Contract.Wire<seq<Record>>) {
    Decodes(g, w) && CarriesGenuine(g, w)
  }

  ghost predicate GoodDelta(g: Game, w: Contract.Wire<seq<Record>>) {
    !w.Garbage? && CarriesGenuine(g, w)
  }

  /** What an update must be to be taken: every half readable and genuine; a delta may repeat itself,
      a state may not; related contracts are taken and ignored, unknown updates refused. */
  ghost predicate Acceptable(g: Game, u: Contract.Update) {
    match u
    case State(s) => GoodState(g, s)
    case Delta(d) => GoodDelta(g, d)
    case StateAndDelta(s, d) => GoodState(g, s) && GoodDelta(g, d)
    case Related => true
    case Unknown => false
  }

  lemma DecodesIsReadable(g: Game, w: Contract.Wire<seq<Record>>)
    requires g.Sound()
    ensures Contract.Readable(g, w) <==> Decodes(g, w)
  {
    if w.Encoded? {
      forall i, j | 0 <= i < j < |w.value|
        ensures g.Id(w.value[i]) == g.Id(w.value[j]) <==> SaysOfRecord(w.value[i]) == SaysOfRecord(w.value[j])
      {
        SameId(g, w.value[i], w.value[j]);
      }
    }
  }

  lemma SameId(g: Game, a: Record, b: Record)
    requires g.Sound()
    ensures g.Id(a) == g.Id(b) <==> SaysOfRecord(a) == SaysOfRecord(b)
  {
    if g.Id(a) == g.Id(b) {
      SameSlot(g, a, b);
    }
  }

  lemma GenuineWire(g: Game, w: Contract.Wire<seq<Record>>)
    ensures Contract.AllVerify(g, Contract.Content(w)) <==> CarriesGenuine(g, w)
  {
    var recs := Contract.Content(w);
    forall i | 0 <= i < |recs| ensures g.Verify(recs[i]) <==> g.Genuine(recs[i]) {
      GenuineIsVerified(g, recs[i]);
    }
  }

  /** Why an update is refused: a half that does not decode, then one that is not genuine, the state half
      first; and only an unknown update for being one. */
  lemma RefusedBecause(g: Game, u: Contract.Update)
    requires g.Sound()
    ensures Contract.Fault(g, u) == None <==> Acceptable(g, u)
    ensures u.State? ==>
      && (Contract.Fault(g, u) == Some(Contract.Deser) <==> !Decodes(g, u.state))
      && (Contract.Fault(g, u) == Some(Contract.InvalidWithInfo) <==>
          Decodes(g, u.state) && !CarriesGenuine(g, u.state))
    ensures u.Delta? ==>
      && (Contract.Fault(g, u) == Some(Contract.Deser) <==> u.delta.Garbage?)
      && (Contract.Fault(g, u) == Some(Contract.InvalidWithInfo) <==> !CarriesGenuine(g, u.delta))
    ensures u.StateAndDelta? ==>
      && (Contract.Fault(g, u) == Some(Contract.Deser) <==>
          !Decodes(g, u.state) || (GoodState(g, u.state) && u.delta.Garbage?))
      && (Contract.Fault(g, u) == Some(Contract.InvalidWithInfo) <==>
          Decodes(g, u.state) && (!CarriesGenuine(g, u.state) || !CarriesGenuine(g, u.delta)))
    ensures Contract.Fault(g, u) == Some(Contract.InvalidUpdate) <==> u.Unknown?
  {
    match u
    case State(s) =>
      DecodesIsReadable(g, s);
      GenuineWire(g, s);
    case Delta(d) => GenuineWire(g, d);
    case StateAndDelta(s, d) =>
      DecodesIsReadable(g, s);
      GenuineWire(g, s);
      GenuineWire(g, d);
    case Related =>
    case Unknown =>
  }

  /** The records an update brings, in either half. */
  ghost predicate Brings(u: Contract.Update, r: Record) {
    match u
    case State(s) => s.Encoded? && r in s.value
    case Delta(d) => d.Encoded? && r in d.value
    case StateAndDelta(s, d) => (s.Encoded? && r in s.value) || (d.Encoded? && r in d.value)
    case Related => false
    case Unknown => false
  }

  /** A call succeeds iff its base decodes and every update is acceptable, and then answers the state of
      exactly the base's records and those the updates bring. */
  lemma CallSucceedsIff(g: Game, base: Contract.Wire<seq<Record>>, data: seq<Contract.Update>, all: set<Record>)
    requires g.Sound()
    requires forall r :: r in all <==> (base.Encoded? && r in base.value) || exists u :: u in data && Brings(u, r)
    ensures Contract.Yields(g, base, data).Some? <==>
            Decodes(g, base) && forall u | u in data :: Acceptable(g, u)
    ensures Contract.Yields(g, base, data).Some? ==> Contract.Yields(g, base, data).value == StateOf(g, all)
  {
    DecodesIsReadable(g, base);
    forall u | u in data ensures Contract.Fault(g, u) == None <==> Acceptable(g, u) {
      RefusedBecause(g, u);
    }
    AllBrought(g, base, data, all);
    assert Contract.NoFault(g, data) <==> forall u | u in data :: Contract.Fault(g, u) == None;
  }

  lemma AllBrought(g: Game, base: Contract.Wire<seq<Record>>, data: seq<Contract.Update>, all: set<Record>)
    requires forall r :: r in all <==> (base.Encoded? && r in base.value) || exists u :: u in data && Brings(u, r)
    ensures all == Members(Contract.Content(base)) + Contract.CarriedBy(data)
  {
    forall r ensures r in Contract.CarriedBy(data) <==> exists u :: u in data && Brings(u, r) {
      if r in Contract.CarriedBy(data) {
        var i :| 0 <= i < |data| && r in Contract.Carries(data[i]);
        assert data[i] in data && Brings(data[i], r);
      }
      if u :| u in data && Brings(u, r) {
        var i :| 0 <= i < |data| && data[i] == u;
        assert r in Contract.Carries(data[i]);
      }
    }
  }

  /** So a contract that answers holds genuine records only, and validating is asking just that. */
  lemma ContractHoldsGenuine(g: Game, base: Contract.Wire<seq<Record>>, data: seq<Contract.Update>)
    requires g.Sound() && Contract.Yields(g, base, data).Some?
    ensures AllGenuine(g, Contract.Yields(g, base, data).value)
  {
    var all := Members(Contract.Content(base)) + Contract.CarriedBy(data);
    StateOfNormal(g, all);
    AllGenuineIsAllValid(g, StateOf(g, all));
  }
}
