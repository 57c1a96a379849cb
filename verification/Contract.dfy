/** The contract interface (contracts/adjourn-contract/src/lib.rs), over decoded values. */
module Contract {
  import opened Types
  import opened Finite
  import opened State
  import opened Algebra
  import opened Sync
  import opened Codecs

  /** Bytes as they arrive: none at all, undecodable, or an encoding of `value`. */
  datatype Wire<+T> = Zero | Garbage | Encoded(value: T)

  datatype ContractError = Deser | InvalidWithInfo | InvalidUpdate

  datatype Update =
    | State(state: Wire<seq<Record>>)
    | Delta(delta: Wire<seq<Record>>)
    | StateAndDelta(state: Wire<seq<Record>>, delta: Wire<seq<Record>>)
    | Related
    | Unknown

  function Content<T>(w: Wire<seq<T>>): seq<T> {
    if w.Encoded? then w.value else []
  }

  ghost predicate Readable(g: Game, w: Wire<seq<Record>>) {
    !w.Garbage? && DistinctIds(g, Content(w))
  }

  ghost predicate AllVerify(g: Game, recs: seq<Record>) {
    forall i | 0 <= i < |recs| :: g.Verify(recs[i])
  }

  /** Why an update is refused: its state half is judged before its delta half, decoding before
      validity. */
  ghost function Fault(g: Game, u: Update): Option<ContractError> {
    match u
    case State(s) => StateFault(g, s)
    case Delta(d) => DeltaFault(g, d)
    case StateAndDelta(s, d) => if StateFault(g, s).Some? then StateFault(g, s) else DeltaFault(g, d)
    case Related => None
    case Unknown => Some(InvalidUpdate)
  }

  ghost function StateFault(g: Game, w: Wire<seq<Record>>): Option<ContractError> {
    if !Readable(g, w) then Some(Deser)
    else if !AllVerify(g, Content(w)) then Some(InvalidWithInfo) else None
  }

  ghost function DeltaFault(g: Game, w: Wire<seq<Record>>): Option<ContractError> {
    if w.Garbage? then Some(Deser) else if !AllVerify(g, Content(w)) then Some(InvalidWithInfo) else None
  }

  /** The records an update carries. */
  ghost function Carries(u: Update): set<Record> {
    match u
    case State(s) => Members(Content(s))
    case Delta(d) => Members(Content(d))
    case StateAndDelta(s, d) => Members(Content(s)) + Members(Content(d))
    case Related => {}
    case Unknown => {}
  }

  ghost function CarriedBy(data: seq<Update>): set<Record> {
    set i, r | 0 <= i < |data| && r in Carries(data[i]) :: r
  }

  method DecodeWire(g: Game, w: Wire<seq<Record>>) returns (r: Result<Records, ContractError>)
    ensures r.Ok? <==> Readable(g, w)
    ensures r.Ok? ==> Holds(g, r.value, Content(w))
    ensures r.Err? ==> r.error == Deser
  {
    match w
    case Zero => return Ok(map[]);
    case Garbage => return Err(Deser);
    case Encoded(recs) =>
      var m := DecodeState(g, recs);
      if m.None? {
        return Err(Deser);
      }
      return Ok(m.value);
  }

  method CheckVerified(g: Game, recs: seq<Record>) returns (ok: bool)
    ensures ok == AllVerify(g, recs)
  {
    for i := 0 to |recs|
      invariant AllVerify(g, recs[..i])
    {
      if !g.Verify(recs[i]) {
        return false;
      }
    }
    assert recs[..|recs|] == recs;
    return true;
  }

  /** Absorbs one readable, valid state. */
  method AbsorbState(g: Game, game: GameState, w: Wire<seq<Record>>) returns (fault: Option<ContractError>)
    requires g.Sound() && Normal(g, game.records)
    modifies game
    ensures fault == StateFault(g, w)
    ensures fault.None? ==> game.records == StateOf(g, old(game.records).Values + Members(Content(w)))
    ensures fault.Some? ==> game.records == old(game.records)
    ensures Normal(g, game.records)
  {
    var incoming := DecodeWire(g, w);
    if incoming.Err? {
      return Some(incoming.error);
    }
    HoldsValues(g, incoming.value, Content(w));
    var ok := CheckAllValid(g, incoming.value);
    AllValidIsAllVerify(g, incoming.value, Content(w));
    if !ok {
      return Some(InvalidWithInfo);
    }
    MergeIsUnion(g, game.records, incoming.value);
    StateOfNormal(g, game.records.Values + incoming.value.Values);
    game.Merge(g, incoming.value);
    return None;
  }

  method CheckAllValid(g: Game, m: Records) returns (ok: bool)
    ensures ok == AllValid(g, m)
  {
    ok := forall id | id in m :: g.Verify(m[id]);
  }

  lemma AllValidIsAllVerify(g: Game, m: Records, recs: seq<Record>)
    requires Holds(g, m, recs)
    ensures AllValid(g, m) <==> AllVerify(g, recs)
  {
    if AllVerify(g, recs) {
      forall id | id in m ensures g.Verify(m[id]) {
        var i :| 0 <= i < |recs| && recs[i] == m[id];
      }
    }
    if AllValid(g, m) {
      forall i | 0 <= i < |recs| ensures g.Verify(recs[i]) {
        assert g.Id(recs[i]) in m;
      }
    }
  }

  /** Absorbs one valid delta with a single eviction. */
  method AbsorbDelta(g: Game, game: GameState, w: Wire<seq<Record>>) returns (fault: Option<ContractError>)
    requires g.Sound() && Normal(g, game.records)
    modifies game
    ensures fault == DeltaFault(g, w)
    ensures fault.None? ==> game.records == StateOf(g, old(game.records).Values + Members(Content(w)))
    ensures fault.Some? ==> game.records == old(game.records)
    ensures Normal(g, game.records)
  {
    match w
    case Zero =>
      assert Members(Content(w)) == {};
      assert game.records.Values + {} == game.records.Values;
      NormalIsStateOf(g, game.records);
      return None;
    case Garbage => return Some(Deser);
    case Encoded(delta) =>
      var ok := CheckVerified(g, delta);
      if !ok {
        return Some(InvalidWithInfo);
      }
      ApplyIsUnion(g, game.records, delta);
      StateOfNormal(g, game.records.Values + Members(delta));
      game.ApplyDelta(g, delta);
      return None;
  }

  ghost predicate NoFault(g: Game, data: seq<Update>) {
    forall i | 0 <= i < |data| :: Fault(g, data[i]).None?
  }

  /** Everything before the first bad update is fine, and `error` is that update's fault. */
  ghost predicate FirstFault(g: Game, data: seq<Update>, i: nat, error: ContractError) {
    i < |data| && NoFault(g, data[..i]) && Fault(g, data[i]) == Some(error)
  }

  /** Decodes a base and drops what is forged or over K. */
  method Normalized(g: Game, base: Wire<seq<Record>>) returns (ok: bool, game: GameState)
    requires g.Sound()
    ensures fresh(game) && ok == Readable(g, base)
    ensures ok ==> game.records == StateOf(g, Members(Content(base))) && Normal(g, game.records)
  {
    game := new GameState.Empty();
    var decoded := DecodeWire(g, base);
    ok := decoded.Ok?;
    if ok {
      HoldsValues(g, decoded.value, Content(base));
      FilteredIs(g, decoded.value);
      game.records := decoded.value;
      game := game.FilterValid(g);
    }
  }

  /** Folds the updates into the normalized base, refusing the whole call at the first bad one. */
  method UpdateState(g: Game, base: Wire<seq<Record>>, data: seq<Update>)
    returns (r: Result<Records, ContractError>)
    requires g.Sound()
    ensures r.Ok? <==> Yields(g, base, data).Some?
    ensures r.Ok? ==> r.value == Yields(g, base, data).value && Normal(g, r.value)
    ensures r.Err? ==> if Readable(g, base) then exists i :: FirstFault(g, data, i, r.error) else r.error == Deser
  {
    var ok, game := Normalized(g, base);
    if !ok {
      return Err(Deser);
    }
    ghost var known := Members(Content(base));
    assert known + CarriedBy(data[..0]) == known;
    for i := 0 to |data|
      invariant fresh(game) && NoFault(g, data[..i])
      invariant Normal(g, game.records) && game.records == StateOf(g, known + CarriedBy(data[..i]))
    {
      ghost var held := known + CarriedBy(data[..i]);
      var fault := AbsorbUpdate(g, game, data[i]);
      if fault.Some? {
        assert FirstFault(g, data, i, fault.value);
        return Err(fault.value);
      }
      OneMoreUpdate(g, known, data, i);
      assert NoFault(g, data[..i + 1]);
    }
    assert data[..|data|] == data;
    return Ok(game.records);
  }

  lemma OneMoreUpdate(g: Game, known: set<Record>, data: seq<Update>, i: nat)
    requires g.Sound() && i < |data|
    ensures StateOf(g, StateOf(g, known + CarriedBy(data[..i])).Values + Carries(data[i])) ==
            StateOf(g, known + CarriedBy(data[..i + 1]))
  {
    CarriedByOneMore(data, i);
    EarlyEviction(g, known + CarriedBy(data[..i]), Carries(data[i]));
    UnionAssociates(known, CarriedBy(data[..i]), Carries(data[i]));
  }

  lemma CarriedByOneMore(data: seq<Update>, i: nat)
    requires i < |data|
    ensures CarriedBy(data[..i + 1]) == CarriedBy(data[..i]) + Carries(data[i])
  {
    forall r | r in Carries(data[i]) ensures r in CarriedBy(data[..i + 1]) {
      assert data[..i + 1][i] == data[i];
    }
    forall r | r in CarriedBy(data[..i]) ensures r in CarriedBy(data[..i + 1]) {
      var j :| 0 <= j < i && r in Carries(data[..i][j]);
      assert data[..i + 1][j] == data[..i][j];
    }
    forall r | r in CarriedBy(data[..i + 1]) ensures r in CarriedBy(data[..i]) + Carries(data[i]) {
      var j :| 0 <= j < i + 1 && r in Carries(data[..i + 1][j]);
      if j < i {
        assert data[..i][j] == data[..i + 1][j];
      }
    }
  }

  method AbsorbUpdate(g: Game, game: GameState, u: Update) returns (fault: Option<ContractError>)
    requires g.Sound() && Normal(g, game.records)
    modifies game
    ensures fault == Fault(g, u)
    ensures fault.None? ==> game.records == StateOf(g, old(game.records).Values + Carries(u))
    ensures Normal(g, game.records)
  {
    match u
    case State(s) => fault := AbsorbState(g, game, s);
    case Delta(d) => fault := AbsorbDelta(g, game, d);
    case StateAndDelta(s, d) =>
      fault := AbsorbState(g, game, s);
      if fault.None? {
        EarlyEviction(g, old(game.records).Values + Members(Content(s)), Members(Content(d)));
        UnionAssociates(old(game.records).Values, Members(Content(s)), Members(Content(d)));
        fault := AbsorbDelta(g, game, d);
      }
    case Related =>
      NormalIsStateOf(g, game.records);
      assert game.records.Values + Carries(u) == game.records.Values;
      fault := None;
    case Unknown => fault := Some(InvalidUpdate);
  }

  /** Accepts every readable state of valid records, over K or not. */
  method ValidateState(g: Game, state: Wire<seq<Record>>) returns (r: Result<bool, ContractError>)
    ensures r.Ok? <==> Readable(g, state)
    ensures r.Ok? ==> (r.value <==> forall i | 0 <= i < |Content(state)| :: g.Genuine(Content(state)[i]))
    ensures r.Err? ==> r.error == Deser
  {
    forall i | 0 <= i < |Content(state)| ensures g.Verify(Content(state)[i]) <==> g.Genuine(Content(state)[i]) {
      GenuineIsVerified(g, Content(state)[i]);
    }
    var decoded := DecodeWire(g, state);
    if decoded.Err? {
      return Err(Deser);
    }
    AllValidIsAllVerify(g, decoded.value, Content(state));
    var ok := CheckAllValid(g, decoded.value);
    return Ok(ok);
  }

  /** A crafted base is normalized before it is summarized. */
  method SummarizeState(g: Game, base: Wire<seq<Record>>) returns (r: Result<Summary, ContractError>)
    requires g.Sound()
    ensures r.Ok? <==> Readable(g, base)
    ensures r.Ok? ==> r.value == Summarized(g, StateOf(g, Members(Content(base))))
    ensures r.Err? ==> r.error == Deser
  {
    var ok, game := Normalized(g, base);
    if !ok {
      return Err(Deser);
    }
    return Ok(Summarized(g, game.records));
  }

  /** A peer that is up to date gets zero bytes, never an encoded empty list. */
  method GetStateDelta(g: Game, base: Wire<seq<Record>>, summary: Wire<Summary>)
    returns (r: Result<Wire<seq<Record>>, ContractError>)
    requires g.Sound()
    ensures r.Ok? <==> Readable(g, base) && !summary.Garbage?
    ensures r.Ok? ==> IsDelta(g, StateOf(g, Members(Content(base))),
                              if summary.Zero? then map[] else summary.value, Content(r.value))
    ensures r.Ok? ==> !r.value.Garbage? && (r.value.Zero? <==> Content(r.value) == [])
    ensures r.Err? ==> r.error == Deser
  {
    var ok, game := Normalized(g, base);
    if !ok {
      return Err(Deser);
    }
    if summary.Garbage? {
      return Err(Deser);
    }
    var held: Summary := if summary.Zero? then map[] else summary.value;
    var delta := DeltaAgainst(g, game.records, held);
    return Ok(if delta == [] then Zero else Encoded(delta));
  }

  // ---- What the fold does not depend on ----

  /** What `UpdateState` answers: nothing where it refuses, else the one state that all the records
      supplied make. */
  ghost function Yields(g: Game, base: Wire<seq<Record>>, data: seq<Update>): Option<Records> {
    if Readable(g, base) && NoFault(g, data) then Some(StateOf(g, Members(Content(base)) + CarriedBy(data)))
    else None
  }

  /** The order of the records in the base, and the order and repetition of the updates, change
      neither whether the call succeeds nor what it answers. */
  lemma UpdateIgnoresOrder(g: Game, base: seq<Record>, base': seq<Record>, data: seq<Update>, data': seq<Update>)
    requires multiset(base) == multiset(base') && forall u :: u in data <==> u in data'
    ensures Readable(g, Encoded(base)) <==> Readable(g, Encoded(base'))
    ensures NoFault(g, data) <==> NoFault(g, data')
    ensures Yields(g, Encoded(base), data) == Yields(g, Encoded(base'), data')
  {
    ShuffledBase(g, base, base');
    SameUpdates(g, data, data');
    SameUpdates(g, data', data);
    assert CarriedBy(data) == CarriedBy(data');
  }

  lemma ShuffledBase(g: Game, a: seq<Record>, b: seq<Record>)
    requires multiset(a) == multiset(b)
    ensures Members(a) == Members(b) && (Readable(g, Encoded(a)) <==> Readable(g, Encoded(b)))
  {
    SameMembers(a, b);
    if Readable(g, Encoded(a)) {
      ShuffledIds(g, a, b);
    } else if Readable(g, Encoded(b)) {
      ShuffledIds(g, b, a);
    }
  }

  lemma SameMembers<T>(a: seq<T>, b: seq<T>)
    requires multiset(a) == multiset(b)
    ensures Members(a) == Members(b)
  {
    forall x ensures x in a <==> x in b {
      assert x in a <==> x in multiset(a);
      assert x in b <==> x in multiset(b);
    }
  }

  /** Shuffling a base does not make an id repeat. */
  lemma ShuffledIds(g: Game, a: seq<Record>, b: seq<Record>)
    requires multiset(a) == multiset(b) && DistinctIds(g, a)
    ensures DistinctIds(g, b)
  {
    SameMembers(a, b);
    forall i, j | 0 <= i < j < |b| ensures g.Id(b[i]) != g.Id(b[j]) {
      if g.Id(b[i]) == g.Id(b[j]) {
        assert b[i] in Members(a) && b[j] in Members(a);
        var k :| 0 <= k < |a| && a[k] == b[i];
        var l :| 0 <= l < |a| && a[l] == b[j];
        TwiceIsTwo(b, i, j);
        OnceIsOne(a, k);
      }
    }
  }

  lemma TwiceIsTwo<T>(s: seq<T>, i: nat, j: nat)
    requires i < j < |s| && s[i] == s[j]
    ensures multiset(s)[s[i]] >= 2
  {
    assert s == s[..j] + s[j..];
    assert s[i] in s[..j] && s[j] in s[j..];
    assert multiset(s) == multiset(s[..j]) + multiset(s[j..]);
  }

  lemma OnceIsOne<T>(s: seq<T>, k: nat)
    requires k < |s| && forall l | 0 <= l < |s| && l != k :: s[l] != s[k]
    ensures multiset(s)[s[k]] == 1
  {
    assert s == s[..k] + [s[k]] + s[k + 1..];
    assert s[k] !in s[..k] && s[k] !in s[k + 1..];
    assert multiset(s) == multiset(s[..k]) + multiset{s[k]} + multiset(s[k + 1..]);
  }

  lemma SameUpdates(g: Game, data: seq<Update>, data': seq<Update>)
    requires forall u | u in data :: u in data'
    ensures CarriedBy(data) <= CarriedBy(data')
    ensures NoFault(g, data') ==> NoFault(g, data)
  {
    forall r | r in CarriedBy(data) ensures r in CarriedBy(data') {
      var i :| 0 <= i < |data| && r in Carries(data[i]);
      assert data[i] in data';
      var j :| 0 <= j < |data'| && data'[j] == data[i];
    }
    if NoFault(g, data') {
      forall i | 0 <= i < |data| ensures Fault(g, data[i]).None? {
        assert data[i] in data';
        var j :| 0 <= j < |data'| && data'[j] == data[i];
      }
    }
  }

  /** Splitting a call in two, the first call's output encoded as the second's base, succeeds exactly
      when the whole call does, and answers the same. */
  lemma UpdateBatches(g: Game, base: Wire<seq<Record>>, first: seq<Update>, second: seq<Update>)
    requires g.Sound()
    ensures NoFault(g, first + second) <==> NoFault(g, first) && NoFault(g, second)
    ensures Yields(g, base, first).None? ==> Yields(g, base, first + second).None?
    ensures forall middle | Yields(g, base, first).Some? && Encodes(g, Yields(g, base, first).value, middle) ::
              Readable(g, Encoded(middle))
              && Yields(g, Encoded(middle), second) == Yields(g, base, first + second)
  {
    NoFaultConcat(g, first, second);
    forall middle | Yields(g, base, first).Some? && Encodes(g, Yields(g, base, first).value, middle)
      ensures Readable(g, Encoded(middle))
              && Yields(g, Encoded(middle), second) == Yields(g, base, first + second)
    {
      var known := Members(Content(base)) + CarriedBy(first);
      HoldsValues(g, StateOf(g, known), middle);
      EarlyEviction(g, known, CarriedBy(second));
      CarriedByConcat(first, second);
      UnionAssociates(Members(Content(base)), CarriedBy(first), CarriedBy(second));
    }
  }

  /** What `EncodeState` writes for `m`. */
  ghost predicate Encodes(g: Game, m: Records, recs: seq<Record>) {
    Holds(g, m, recs) && DistinctIds(g, recs)
  }

  lemma NoFaultConcat(g: Game, a: seq<Update>, b: seq<Update>)
    ensures NoFault(g, a + b) <==> NoFault(g, a) && NoFault(g, b)
  {
    if NoFault(g, a + b) {
      forall i | 0 <= i < |a| ensures Fault(g, a[i]).None? {
        assert (a + b)[i] == a[i];
      }
      forall i | 0 <= i < |b| ensures Fault(g, b[i]).None? {
        assert (a + b)[|a| + i] == b[i];
      }
    }
  }

  lemma CarriedByConcat(a: seq<Update>, b: seq<Update>)
    ensures CarriedBy(a + b) == CarriedBy(a) + CarriedBy(b)
  {
    forall r | r in CarriedBy(a) ensures r in CarriedBy(a + b) {
      var i :| 0 <= i < |a| && r in Carries(a[i]);
      assert (a + b)[i] == a[i];
    }
    forall r | r in CarriedBy(b) ensures r in CarriedBy(a + b) {
      var i :| 0 <= i < |b| && r in Carries(b[i]);
      assert (a + b)[|a| + i] == b[i];
    }
    forall r | r in CarriedBy(a + b) ensures r in CarriedBy(a) + CarriedBy(b) {
      var i :| 0 <= i < |a + b| && r in Carries((a + b)[i]);
      assert (a + b)[i] == if i < |a| then a[i] else b[i - |a|];
    }
  }

  /** Absorb, evict, absorb, evict, ... */
  ghost function InsertedOneByOne(g: Game, m: Records, delta: seq<Record>): Records {
    if delta == [] then m else
      Applied(g, InsertedOneByOne(g, m, delta[..|delta| - 1]), [delta[|delta| - 1]])
  }

  /** One eviction per batch equals one eviction per record. */
  lemma {:induction false} BatchedEviction(g: Game, m: Records, delta: seq<Record>)
    requires g.Sound() && Normal(g, m)
    ensures InsertedOneByOne(g, m, delta) == Applied(g, m, delta) == StateOf(g, m.Values + Members(delta))
  {
    ApplyIsUnion(g, m, delta);
    if delta == [] {
      NormalIsStateOf(g, m);
      assert m.Values + Members(delta) == m.Values;
    } else {
      var n := |delta| - 1;
      BatchedEviction(g, m, delta[..n]);
      ApplyToState(g, m.Values + Members(delta[..n]), [delta[n]]);
      MembersLast(delta);
      UnionAssociates(m.Values, Members(delta[..n]), {delta[n]});
    }
  }

  /** What a crafted base reports is what its normal form reports. */
  lemma CraftedBaseReportsNormal(g: Game, crafted: seq<Record>, normal: seq<Record>)
    requires g.Sound()
    requires Holds(g, StateOf(g, Members(crafted)), normal)
    ensures StateOf(g, Members(normal)) == StateOf(g, Members(crafted))
  {
    HoldsValues(g, StateOf(g, Members(crafted)), normal);
    StateOfNormal(g, Members(crafted));
    NormalIsStateOf(g, StateOf(g, Members(crafted)));
  }
}
