/** Moving a game to a rebuilt contract (client/src/session.rs, `migrate_label`): read the old
    contract, PUT what was read under the new id, only then tell the delegate. Any number of
    attempts, of any builds, interleave and may stop at any step. */
module Migration {
  import opened Types
  import opened Finite
  import opened State
  import opened Algebra
  import opened Delegate
  import opened Sync
  import OneSignature

  /** How far an attempt has got. */
  datatype Stage = Asked | Copied(copy: Records) | Stored(copy: Records) | Done

  datatype Attempt = Attempt(name: Label, origin: Option<Origin>, old': ContractId, target: ContractId, stage: Stage)

  /** `brought` is history: what the attempt that set the delegate's current contract had read. */
  datatype Sys = Sys(contracts: map<ContractId, Records>, rec: GameRecord, attempts: seq<Attempt>,
                     brought: set<Record>)

  datatype Event =
    | Begin(name: Label, origin: Option<Origin>, target: ContractId)
    | Fetch(attempt: nat)
    | Put(attempt: nat)
    | Repoint(attempt: nat, fates: Fates)
    | Others(id: ContractId, state: Records)

  /** The network's side of a PUT: validated, stored where nothing is, merged where something is. */
  ghost function PutInto(g: Game, contracts: map<ContractId, Records>, id: ContractId, m: Records)
    : Option<map<ContractId, Records>>
  {
    if !AllValid(g, m) then None
    else if id !in contracts then Some(contracts[id := m])
    else Some(contracts[id := Merged(g, Filtered(g, contracts[id]), m)])
  }

  ghost predicate Enabled(g: Game, s: Sys, e: Event) {
    match e
    case Begin(_, _, target) => target != s.rec.contract
    case Fetch(i) => i < |s.attempts| && s.attempts[i].stage == Asked && s.attempts[i].old' in s.contracts
    case Put(i) =>
      i < |s.attempts| && s.attempts[i].stage.Copied?
      && PutInto(g, s.contracts, s.attempts[i].target, s.attempts[i].stage.copy).Some?
    case Repoint(i, _) =>
      i < |s.attempts| && s.attempts[i].stage.Stored?
      && DecideRebind(Some(s.rec), s.attempts[i].name, s.attempts[i].target, s.attempts[i].origin).Ok?
    case Others(id, m) => Keyed(g, m) && PutInto(g, s.contracts, id, m).Some?
  }

  /** An attempt that is interrupted simply never takes another step. The delegate makes two writes
      and may then fail to answer; the record moves as soon as the first write lands (`RebindLands`). */
  ghost function Step(g: Game, s: Sys, e: Event): Sys
    requires Enabled(g, s, e)
  {
    match e
    case Begin(name, origin, target) =>
      s.(attempts := s.attempts + [Attempt(name, origin, s.rec.contract, target, Asked)])
    case Fetch(i) =>
      var a := s.attempts[i];
      s.(attempts := s.attempts[i := a.(stage := Copied(s.contracts[a.old']))])
    case Put(i) =>
      var a := s.attempts[i];
      s.(contracts := PutInto(g, s.contracts, a.target, a.stage.copy).value,
         attempts := s.attempts[i := a.(stage := Stored(a.stage.copy))])
    case Repoint(i, fates) =>
      var a := s.attempts[i];
      var decided := DecideRebind(Some(s.rec), a.name, a.target, a.origin).value;
      var done := s.(attempts := s.attempts[i := a.(stage := Done)]);
      if !fates.first.Lost? then done.(rec := decided, brought := a.stage.copy.Values) else done
    case Others(id, m) => s.(contracts := PutInto(g, s.contracts, id, m).value)
  }

  ghost predicate Inv(g: Game, s: Sys) {
    && (forall id | id in s.contracts :: Keyed(g, s.contracts[id]) && AllValid(g, s.contracts[id]))
    && s.rec.previous != Some(s.rec.contract)
    && (s.brought == {} || (s.rec.contract in s.contracts && Contains(g, s.contracts[s.rec.contract], s.brought)))
    && (forall i | 0 <= i < |s.attempts| :: Sane(g, s.contracts, s.attempts[i]))
  }

  ghost predicate Sane(g: Game, contracts: map<ContractId, Records>, a: Attempt) {
    a.target != a.old' &&
    match a.stage
    case Asked => true
    case Copied(copy) => Keyed(g, copy) && AllValid(g, copy)
    case Stored(copy) => a.target in contracts && Contains(g, contracts[a.target], copy.Values)
    case Done => true
  }

  /** A PUT keeps whatever the contract contained, and adds what was put. */
  lemma PutContains(g: Game, contracts: map<ContractId, Records>, id: ContractId, m: Records)
    requires g.Sound() && Keyed(g, m) && PutInto(g, contracts, id, m).Some?
    requires forall k | k in contracts :: Keyed(g, contracts[k]) && AllValid(g, contracts[k])
    ensures var next := PutInto(g, contracts, id, m).value;
            && (forall k | k in next :: Keyed(g, next[k]) && AllValid(g, next[k]))
            && id in next && Contains(g, next[id], m.Values)
            && contracts.Keys <= next.Keys
            && (forall k, recs | k in contracts && Contains(g, contracts[k], recs) :: Contains(g, next[k], recs))
  {
    if id in contracts {
      MergeContains(g, contracts[id], m);
    } else {
      UnionAbsorbs(m.Values, m.Values);
    }
  }

  lemma MergeContains(g: Game, now: Records, m: Records)
    requires g.Sound() && Keyed(g, m) && Keyed(g, now) && AllValid(g, now)
    ensures var next := Merged(g, Filtered(g, now), m);
            && Keyed(g, next) && AllValid(g, next) && Contains(g, next, m.Values)
            && forall recs | Contains(g, now, recs) :: Contains(g, next, recs)
  {
    FilteredIs(g, now);
    MergeIntoState(g, now.Values, m);
    StateOfNormal(g, now.Values + m.Values);
    MergedContains(g, now.Values, m.Values, m.Values);
    forall recs | Contains(g, now, recs) ensures Contains(g, StateOf(g, now.Values + m.Values), recs) {
      StillContains(g, now.Values, m.Values, recs);
    }
  }

  lemma MergedContains(g: Game, a: set<Record>, b: set<Record>, recs: set<Record>)
    requires g.Sound() && recs <= b
    ensures Contains(g, StateOf(g, a + b), recs)
  {
    EarlyEviction(g, a + b, recs);
    UnionAbsorbs(a + b, recs);
    StateOfNormal(g, a + b);
    NormalIsStateOf(g, StateOf(g, a + b));
  }

  lemma StillContains(g: Game, a: set<Record>, b: set<Record>, recs: set<Record>)
    requires g.Sound() && StateOf(g, a + recs) == StateOf(g, a)
    ensures Contains(g, StateOf(g, a + b), recs)
  {
    EarlyEviction(g, a + b, recs);
    EarlyEviction(g, a + recs, b);
    EarlyEviction(g, a, b);
    UnionSwaps(a, b, recs);
    StateOfNormal(g, a + b);
    NormalIsStateOf(g, StateOf(g, a + b));
  }

  /** Every write to any contract leaves the invariant alone. */
  lemma PutKeeps(g: Game, s: Sys, id: ContractId, m: Records)
    requires g.Sound() && Inv(g, s) && Keyed(g, m) && PutInto(g, s.contracts, id, m).Some?
    ensures Inv(g, s.(contracts := PutInto(g, s.contracts, id, m).value))
  {
    PutContains(g, s.contracts, id, m);
    var next := PutInto(g, s.contracts, id, m).value;
    forall i | 0 <= i < |s.attempts| ensures Sane(g, next, s.attempts[i]) {
      assert Sane(g, s.contracts, s.attempts[i]);
    }
  }

  lemma SetAttempt(g: Game, s: Sys, i: nat, a: Attempt)
    requires Inv(g, s) && i < |s.attempts| && Sane(g, s.contracts, a)
    ensures Inv(g, s.(attempts := s.attempts[i := a]))
  {
  }

  lemma StepKeeps(g: Game, s: Sys, e: Event)
    requires g.Sound() && Inv(g, s) && Enabled(g, s, e)
    ensures Inv(g, Step(g, s, e))
  {
    match e
    case Begin(_, _, _) =>
    case Fetch(i) => SetAttempt(g, s, i, s.attempts[i].(stage := Copied(s.contracts[s.attempts[i].old'])));
    case Put(i) =>
      var a := s.attempts[i];
      assert Sane(g, s.contracts, a);
      PutContains(g, s.contracts, a.target, a.stage.copy);
      PutKeeps(g, s, a.target, a.stage.copy);
      SetAttempt(g, s.(contracts := PutInto(g, s.contracts, a.target, a.stage.copy).value), i,
                 a.(stage := Stored(a.stage.copy)));
    case Repoint(i, _) =>
      assert Sane(g, s.contracts, s.attempts[i]);
      SetAttempt(g, s, i, s.attempts[i].(stage := Done));
    case Others(id, m) => PutKeeps(g, s, id, m);
  }

  ghost predicate CanRun(g: Game, s: Sys, events: seq<Event>)
    decreases |events|
  {
    events != [] ==> Enabled(g, s, events[0]) && CanRun(g, Step(g, s, events[0]), events[1..])
  }

  ghost function Run(g: Game, s: Sys, events: seq<Event>): Sys
    requires CanRun(g, s, events)
    decreases |events|
  {
    if events == [] then s else Run(g, Step(g, s, events[0]), events[1..])
  }

  lemma StepRepoints(g: Game, s: Sys, e: Event)
    requires Enabled(g, s, e)
    ensures var rec := Step(g, s, e).rec; rec == s.rec.(contract := rec.contract, previous := rec.previous)
  {
  }

  /** After any run the delegate points at a contract holding every record read by the attempt that
      put it there, `previous` is never the current contract, and nothing about the record but
      those two addresses has changed. */
  lemma {:induction false} MigrationIsSafe(g: Game, s: Sys, events: seq<Event>)
    requires g.Sound() && Inv(g, s) && CanRun(g, s, events)
    ensures var end := Run(g, s, events);
            && Inv(g, end)
            && end.rec == s.rec.(contract := end.rec.contract, previous := end.rec.previous)
    decreases |events|
  {
    if events != [] {
      StepKeeps(g, s, events[0]);
      StepRepoints(g, s, events[0]);
      MigrationIsSafe(g, Step(g, s, events[0]), events[1..]);
    }
  }

  /** What the delegate's handler does to the label's record and what it answers: the record moves
      exactly when its own write landed, and the answer says so exactly when both writes were
      reported. A refusal may hide a record that has moved. */
  lemma RebindLands(h: Host, v: Vault, name: Label, target: ContractId, origin: Option<Origin>, fates: Fates,
                    rec: GameRecord)
    requires OneSignature.Filed(h, v) && v.LoadBound(name) == Some(rec)
    requires DecideRebind(Some(rec), name, target, origin).Ok?
    ensures var (v', r) := Handled(h, v, Call(origin, Rebind(name, target), fates, map[]));
            && v'.LoadBound(name) ==
               Some(if fates.first.Lost? then rec else DecideRebind(Some(rec), name, target, origin).value)
            && r == (if fates.first.Written? && fates.second.Written? then Bound(h.gameId(rec.params))
                     else Refused(StoreFailed))
  {
    assert h.gameId(rec.params) == v.binds[name];
  }

  /** What this attempt read is still all there is: the delegate still points at the contract it read,
      and that has gained nothing over the copy. */
  ghost predicate UpToDate(g: Game, s: Sys, i: nat)
    requires i < |s.attempts|
  {
    var a := s.attempts[i];
    && a.old' == s.rec.contract && a.old' in s.contracts
    && (a.stage.Copied? || a.stage.Stored?)
    && Contains(g, a.stage.copy, s.contracts[a.old'].Values)
  }

  /** A rebind that lands for an up-to-date attempt leaves nothing behind: the contract the delegate
      now points at contains all that the one it pointed at holds. */
  lemma LandingLeavesNothing(g: Game, s: Sys, i: nat, fates: Fates)
    requires g.Sound() && Inv(g, s) && Enabled(g, s, Repoint(i, fates)) && !fates.first.Lost? && UpToDate(g, s, i)
    ensures var end := Step(g, s, Repoint(i, fates));
            && end.rec.contract == s.attempts[i].target && end.rec.previous == Some(s.rec.contract)
            && end.rec.contract in end.contracts
            && Contains(g, end.contracts[end.rec.contract], s.contracts[s.rec.contract].Values)
  {
    var a := s.attempts[i];
    assert Sane(g, s.contracts, a);
    ContainsThrough(g, s.contracts[a.target], a.stage.copy, s.contracts[a.old'].Values);
  }

  lemma ContainsThrough(g: Game, big: Records, mid: Records, recs: set<Record>)
    requires g.Sound() && Contains(g, big, mid.Values) && Contains(g, mid, recs)
    ensures Contains(g, big, recs)
  {
    SameState(g, mid.Values + recs, mid.Values, big.Values);
    SameState(g, big.Values + mid.Values, big.Values, recs);
    UnionCommutes(mid.Values + recs, big.Values);
    UnionCommutes(mid.Values, big.Values);
    UnionAssociates(big.Values, mid.Values, recs);
  }

  /** Nobody moves the record, and nobody writes to the contract the attempt read. */
  ghost predicate Undisturbed(s: Sys, i: nat, e: Event)
    requires i < |s.attempts|
  {
    match e
    case Begin(_, _, _) => true
    case Fetch(j) => true
    case Put(j) => j < |s.attempts| ==> s.attempts[j].target != s.attempts[i].old'
    case Repoint(j, fates) => j != i && fates.first.Lost?
    case Others(id, _) => id != s.attempts[i].old'
  }

  ghost predicate QuietRun(g: Game, s: Sys, i: nat, events: seq<Event>)
    requires i < |s.attempts| && CanRun(g, s, events)
    decreases |events|
  {
    events != [] ==>
      Undisturbed(s, i, events[0]) && QuietRun(g, Step(g, s, events[0]), i, events[1..])
  }

  lemma StaysUpToDate(g: Game, s: Sys, i: nat, e: Event)
    requires g.Sound() && Inv(g, s) && Enabled(g, s, e) && i < |s.attempts|
    requires UpToDate(g, s, i) && Undisturbed(s, i, e)
    ensures UpToDate(g, Step(g, s, e), i)
  {
  }

  /** From the fetch on, whatever else happens, an attempt whose contract nobody wrote to and whose
      game nobody moved stays up to date: landing then leaves nothing behind. */
  lemma {:induction false} NothingLeftBehind(g: Game, s: Sys, i: nat, events: seq<Event>)
    requires g.Sound() && Inv(g, s) && i < |s.attempts| && UpToDate(g, s, i)
    requires CanRun(g, s, events) && QuietRun(g, s, i, events)
    ensures var end := Run(g, s, events); Inv(g, end) && i < |end.attempts| && UpToDate(g, end, i)
    decreases |events|
  {
    if events != [] {
      StepKeeps(g, s, events[0]);
      StaysUpToDate(g, s, i, events[0]);
      NothingLeftBehind(g, Step(g, s, events[0]), i, events[1..]);
    }
  }

  /** A fetch of the recorded contract is up to date. */
  lemma FetchIsUpToDate(g: Game, s: Sys, i: nat)
    requires Enabled(g, s, Fetch(i)) && s.attempts[i].old' == s.rec.contract
    ensures UpToDate(g, Step(g, s, Fetch(i)), i)
  {
    var held := s.contracts[s.rec.contract].Values;
    UnionAbsorbs(held, held);
  }

  /** Every record on any contract or in any attempt's hands. */
  ghost function Around(s: Sys): set<Record> {
    (set id, r | id in s.contracts && r in s.contracts[id].Values :: r)
    + (set i, r | 0 <= i < |s.attempts| && s.attempts[i].stage.Copied? && r in s.attempts[i].stage.copy.Values :: r)
  }

  /** A step that is not somebody else's write and does not move the record. */
  ghost predicate Unlanded(e: Event) {
    !e.Others? && (e.Repoint? ==> e.fates.first.Lost?)
  }

  /** However many attempts run and stop, until one's rebind lands the delegate knows what it knew,
      every contract still holds all it held, and nothing is anywhere that was not somewhere. */
  lemma {:induction false} InterruptionIsHarmless(g: Game, s: Sys, events: seq<Event>)
    requires g.Sound() && Inv(g, s) && CanRun(g, s, events)
    requires forall i | 0 <= i < |events| :: Unlanded(events[i])
    ensures var end := Run(g, s, events);
            && end.rec == s.rec && end.brought == s.brought
            && Around(end) <= Around(s)
            && s.contracts.Keys <= end.contracts.Keys
            && forall k, recs | k in s.contracts && Contains(g, s.contracts[k], recs) ::
                 Contains(g, end.contracts[k], recs)
    decreases |events|
  {
    if events != [] {
      StepKeeps(g, s, events[0]);
      StepIsHarmless(g, s, events[0]);
      forall i | 0 <= i < |events| - 1 ensures Unlanded(events[1..][i]) {
        assert events[1..][i] == events[i + 1];
      }
      InterruptionIsHarmless(g, Step(g, s, events[0]), events[1..]);
    }
  }

  lemma StepIsHarmless(g: Game, s: Sys, e: Event)
    requires g.Sound() && Inv(g, s) && Enabled(g, s, e) && Unlanded(e)
    ensures var next := Step(g, s, e);
            && next.rec == s.rec && next.brought == s.brought
            && Around(next) <= Around(s)
            && s.contracts.Keys <= next.contracts.Keys
            && forall k, recs | k in s.contracts && Contains(g, s.contracts[k], recs) ::
                 Contains(g, next.contracts[k], recs)
  {
    StepInventsNothing(g, s, e);
    if e.Put? {
      var a := s.attempts[e.attempt];
      assert Sane(g, s.contracts, a);
      PutContains(g, s.contracts, a.target, a.stage.copy);
    }
  }

  lemma StepInventsNothing(g: Game, s: Sys, e: Event)
    requires g.Sound() && Inv(g, s) && Enabled(g, s, e) && Unlanded(e)
    ensures Around(Step(g, s, e)) <= Around(s)
  {
    var next := Step(g, s, e);
    forall k, r | k in next.contracts && r in next.contracts[k].Values ensures r in Around(s) {
      if e.Put? && k == s.attempts[e.attempt].target {
        var copy := s.attempts[e.attempt].stage.copy;
        assert Sane(g, s.contracts, s.attempts[e.attempt]);
        PutInvents(g, s.contracts, k, copy);
        assert r in copy.Values || (k in s.contracts && r in s.contracts[k].Values);
      }
    }
    forall i, r | 0 <= i < |next.attempts| && next.attempts[i].stage.Copied? && r in next.attempts[i].stage.copy.Values
      ensures r in Around(s)
    {
      if e.Fetch? && i == e.attempt {
        assert r in s.contracts[s.attempts[i].old'].Values;
      } else {
        assert next.attempts[i] == s.attempts[i];
      }
    }
  }

  lemma PutInvents(g: Game, contracts: map<ContractId, Records>, id: ContractId, m: Records)
    requires g.Sound() && Keyed(g, m) && PutInto(g, contracts, id, m).Some?
    requires id in contracts ==> Keyed(g, contracts[id])
    ensures var next := PutInto(g, contracts, id, m).value;
            next[id].Values <= m.Values + if id in contracts then contracts[id].Values else {}
  {
    if id in contracts {
      FilteredIs(g, contracts[id]);
      MergeIntoState(g, contracts[id].Values, m);
      StateOfNormal(g, contracts[id].Values + m.Values);
    }
  }

  /** Re-running to the end after any interruption completes the move: the delegate points at the
      target, the address it left is remembered, and the target holds all that the old one held. */
  lemma RerunCompletes(g: Game, s: Sys, name: Label, origin: Option<Origin>, target: ContractId)
    requires g.Sound() && Inv(g, s) && target != s.rec.contract && s.rec.contract in s.contracts
    requires DecideRebind(Some(s.rec), name, target, origin).Ok?
    ensures var i := |s.attempts|;
            var events := [Begin(name, origin, target), Fetch(i), Put(i), Repoint(i, ALL_WRITTEN)];
            && CanRun(g, s, events)
            && var end := Run(g, s, events);
               && end.rec.contract == target && end.rec.previous == Some(s.rec.contract)
               && target in end.contracts
               && Contains(g, end.contracts[target], s.contracts[s.rec.contract].Values)
  {
    var i := |s.attempts|;
    var e0, e1, e2, e3 := Begin(name, origin, target), Fetch(i), Put(i), Repoint(i, ALL_WRITTEN);
    var s1 := Step(g, s, e0);
    StepKeeps(g, s, e0);
    var s2 := Step(g, s1, e1);
    StepKeeps(g, s1, e1);
    var s3 := Step(g, s2, e2);
    StepKeeps(g, s2, e2);
    assert Sane(g, s3.contracts, s3.attempts[i]);
    var s4 := Step(g, s3, e3);
    RunFour(g, s, e0, e1, e2, e3);
  }

  lemma RunFour(g: Game, s: Sys, e0: Event, e1: Event, e2: Event, e3: Event)
    requires Enabled(g, s, e0) && Enabled(g, Step(g, s, e0), e1)
    requires Enabled(g, Step(g, Step(g, s, e0), e1), e2)
    requires Enabled(g, Step(g, Step(g, Step(g, s, e0), e1), e2), e3)
    ensures CanRun(g, s, [e0, e1, e2, e3])
    ensures Run(g, s, [e0, e1, e2, e3]) == Step(g, Step(g, Step(g, Step(g, s, e0), e1), e2), e3)
  {
    var s1 := Step(g, s, e0);
    var s2 := Step(g, s1, e1);
    var s3 := Step(g, s2, e2);
    RunFirst(g, s3, e3, []);
    RunFirst(g, s2, e2, [e3]);
    RunFirst(g, s1, e1, [e2, e3]);
    RunFirst(g, s, e0, [e1, e2, e3]);
  }

  lemma RunFirst(g: Game, s: Sys, e: Event, rest: seq<Event>)
    requires Enabled(g, s, e) && CanRun(g, Step(g, s, e), rest)
    ensures CanRun(g, s, [e] + rest) && Run(g, s, [e] + rest) == Run(g, Step(g, s, e), rest)
  {
    assert ([e] + rest)[0] == e && ([e] + rest)[1..] == rest;
  }

  const ALL_WRITTEN := Fates(Written, Written, Written)

  // ---- The client's own sequence of calls ----

  datatype Outcome = AlreadyCurrent | Migrated(from: ContractId, to: ContractId) | Stopped

  /** Where one attempt ends: how many of its calls are made, what becomes of the delegate's two
      writes, and whether its answer arrives. */
  datatype Luck = Luck(survives: nat, fates: Fates, answered: bool)

  /** The attempt gets as far as the rebind, and the rebind is granted. */
  ghost predicate Reaches(s: Sys, name: Label, origin: Option<Origin>, target: ContractId, luck: Luck) {
    && target != s.rec.contract && s.rec.contract in s.contracts && luck.survives >= 3
    && DecideRebind(Some(s.rec), name, target, origin).Ok?
  }

  /** The record moved, whatever the client was told. */
  ghost predicate Lands(s: Sys, name: Label, origin: Option<Origin>, target: ContractId, luck: Luck) {
    Reaches(s, name, origin, target, luck) && !luck.fates.first.Lost?
  }

  class Node {
    var sys: Sys

    constructor (s: Sys)
      ensures sys == s
    {
      sys := s;
    }

    /** One attempt, which may be cut off after any call and any write. Each step is one of the
        machine's, in the one order that is safe. */
    method MigrateLabel(g: Game, name: Label, origin: Option<Origin>, target: ContractId, luck: Luck)
      returns (outcome: Outcome)
      requires g.Sound() && Inv(g, sys)
      modifies this
      ensures Inv(g, sys)
      ensures outcome.AlreadyCurrent? <==> target == old(sys).rec.contract
      ensures outcome.AlreadyCurrent? ==> sys == old(sys)
      ensures outcome.Migrated? <==>
                Reaches(old(sys), name, origin, target, luck) && luck.answered
                && luck.fates.first.Written? && luck.fates.second.Written?
      ensures outcome.Migrated? ==> outcome == Migrated(old(sys).rec.contract, target)
      ensures sys.rec == if Lands(old(sys), name, origin, target, luck)
                         then old(sys).rec.(contract := target, previous := Some(old(sys).rec.contract))
                         else old(sys).rec
      ensures sys.brought == if Lands(old(sys), name, origin, target, luck)
                             then old(sys).contracts[old(sys).rec.contract].Values
                             else old(sys).brought
    {
      outcome := Stopped;
      if target == sys.rec.contract {
        return AlreadyCurrent;
      }
      var from, i := sys.rec.contract, |sys.attempts|;
      var copied := Copy(g, name, origin, target, luck.survives);
      if !copied {
        return;
      }
      var decided := DecideRebind(Some(sys.rec), name, target, origin);
      if luck.survives < 3 || decided.Err? {
        return;
      }
      TellDelegate(g, i, decided.value, luck.fates);
      if luck.answered && luck.fates.first.Written? && luck.fates.second.Written? {
        return Migrated(from, target);
      }
    }

    /** The rebind itself: the record and what it brought move with the first write. */
    method TellDelegate(g: Game, i: nat, decided: GameRecord, fates: Fates)
      requires g.Sound() && Inv(g, sys) && i < |sys.attempts| && sys.attempts[i].stage.Stored?
      requires var a := sys.attempts[i]; DecideRebind(Some(sys.rec), a.name, a.target, a.origin) == Ok(decided)
      modifies this
      ensures Inv(g, sys)
      ensures sys.rec == if fates.first.Lost? then old(sys).rec else decided
      ensures sys.brought == if fates.first.Lost? then old(sys).brought else old(sys).attempts[i].stage.copy.Values
    {
      StepKeeps(g, sys, Repoint(i, fates));
      var a := sys.attempts[i];
      sys := sys.(attempts := sys.attempts[i := a.(stage := Done)]);
      if !fates.first.Lost? {
        sys := sys.(rec := decided, brought := a.stage.copy.Values);
      }
    }

    /** Everything before the delegate is told: begin, read the old contract, PUT. */
    method Copy(g: Game, name: Label, origin: Option<Origin>, target: ContractId, survives: nat)
      returns (copied: bool)
      requires g.Sound() && Inv(g, sys) && target != sys.rec.contract
      modifies this
      ensures Inv(g, sys) && sys.rec == old(sys).rec && sys.brought == old(sys).brought
      ensures copied <==> survives >= 2 && old(sys).rec.contract in old(sys).contracts
      ensures copied ==>
        && var i := |old(sys).attempts|;
           && i < |sys.attempts|
           && sys.attempts[i] == Attempt(name, origin, old(sys).rec.contract, target,
                                         Stored(old(sys).contracts[old(sys).rec.contract]))
    {
      var from, i := sys.rec.contract, |sys.attempts|;
      StepKeeps(g, sys, Begin(name, origin, target));
      sys := sys.(attempts := sys.attempts + [Attempt(name, origin, from, target, Asked)]);
      if survives < 1 || from !in sys.contracts {
        return false;
      }
      StepKeeps(g, sys, Fetch(i));
      var copy := sys.contracts[from];
      sys := sys.(attempts := sys.attempts[i := sys.attempts[i].(stage := Copied(copy))]);
      if survives < 2 {
        return false;
      }
      StepKeeps(g, sys, Put(i));
      var put := StorePut(g, sys.contracts, target, copy);
      sys := sys.(contracts := put, attempts := sys.attempts[i := sys.attempts[i].(stage := Stored(copy))]);
      return true;
    }
  }

  method StorePut(g: Game, contracts: map<ContractId, Records>, id: ContractId, m: Records)
    returns (next: map<ContractId, Records>)
    requires g.Sound() && Keyed(g, m) && AllValid(g, m)
    requires id in contracts ==> Keyed(g, contracts[id])
    ensures PutInto(g, contracts, id, m) == Some(next)
  {
    if id !in contracts {
      return contracts[id := m];
    }
    var base := new GameState.Empty();
    base.records := contracts[id];
    var game := base.FilterValid(g);
    game.Merge(g, m);
    return contracts[id := game.records];
  }
}
