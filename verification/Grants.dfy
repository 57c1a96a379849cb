/** What the delegate grants, to whom, and what it then holds: said of the stored fields, the caller, the
    request and the writes (delegates/adjourn-delegate/src/lib.rs, common/src/delegate_policy.rs). */
module Grants {
  import opened Types
  import opened Chess
  import opened Project
  import opened State
  import opened Delegate
  import opened OneSignature

  /** There is a record of this game that this build can read. */
  ghost predicate Legible(v: Vault, id: GameId) {
    id in v.games && (v.games[id].format == 2 || v.games[id].format == 3)
  }

  /** How such a record reads: the older format had no `previous`. */
  ghost function Read(v: Vault, id: GameId): GameRecord
    requires Legible(v, id)
  {
    if v.games[id].format == 2 then v.games[id].(format := 3, previous := None) else v.games[id]
  }

  ghost predicate Indexed(v: Vault, name: Label) {
    name in v.binds && Legible(v, v.binds[name])
  }

  lemma LoadsGame(v: Vault, id: GameId)
    ensures v.LoadGame(id).Some? <==> Legible(v, id)
    ensures Legible(v, id) ==> v.LoadGame(id).value == Read(v, id)
  {
  }

  lemma LoadsBound(v: Vault, name: Label)
    ensures v.LoadBound(name).Some? <==> Indexed(v, name)
    ensures Indexed(v, name) ==> v.LoadBound(name).value == Read(v, v.binds[name])
  {
  }

  /** The label's creator, as recorded, is the caller. A label without an owner is anybody's without an
      origin. */
  ghost predicate Owns(v: Vault, name: Label, origin: Option<Origin>) {
    if origin.Some? then name in v.owners && v.owners[name] == origin.value else name !in v.owners
  }

  ghost predicate BothReported(fates: Fates) {
    fates.first == Written && fates.second == Written
  }

  /** What storing a record does: the record unless its write is lost; the label's index only once the
      record is reported written, and unless that write is lost; nothing else. */
  ghost predicate Stores(h: Host, v: Vault, v': Vault, rec: GameRecord, fates: Fates) {
    var id := h.gameId(rec.params);
    && v'.keys == v.keys && v'.qualities == v.qualities && v'.owners == v.owners
    && v'.games == (if fates.first == Lost then v.games else v.games[id := rec])
    && v'.binds == (if fates.first == Written && fates.second != Lost then v.binds[rec.name := id] else v.binds)
  }

  lemma StoreMeans(h: Host, v: Vault, rec: GameRecord, fates: Fates)
    ensures Stores(h, v, StoredGame(h, v, rec, fates).0, rec, fates)
    ensures StoredGame(h, v, rec, fates).1 <==> BothReported(fates)
  {
  }

  // ---- Signing ----

  /** The state at hand shows the game over, or shows this very ply next with this move not among the
      legal ones. */
  ghost predicate SeenIllegal(h: Host, rec: GameRecord, replicas: map<ContractId, Records>, body: Body) {
    && body.Move? && rec.contract in replicas
    && var g, s := h.game(rec.params), replicas[rec.contract].Keys;
       Verdict(g, h.rules, s) != None
       || (|ChainOf(g, h.rules, s)| + 1 == body.ply && body.uci !in h.legal(Replay(g, h.rules, ChainOf(g, h.rules, s))))
  }

  /** A move is signed within the cap, on its signer's turn, and past the counter, or again at it. Other
      statements are always signed. */
  ghost predicate MaySign(h: Host, rec: GameRecord, body: Body) {
    body.Move? ==>
      && body.ply <= 4096
      && (if body.ply % 2 == 1 then rec.side == White else rec.side == Black)
      && (body.ply > rec.lastSignedPly
          || (body.ply == rec.lastSignedPly && body.ply != 0 && h.bodyHash(body) == rec.lastMoveBodyHash))
  }

  /** A signature is released exactly to the caller who bound the game, for a key that is held, a body
      that may be signed, and once both writes are reported. It is over that body, by that key. */
  lemma SignedIff(h: Host, v: Vault, call: Call)
    requires call.request.Sign?
    ensures var Sign(id, body) := call.request;
            var r := Handled(h, v, call).1;
            && (r.Signed? <==>
                && Legible(v, id) && Read(v, id).origin == call.origin && Read(v, id).name in v.keys
                && !SeenIllegal(h, Read(v, id), call.replicas, body)
                && MaySign(h, Read(v, id), body) && BothReported(call.fates))
            && (r.Signed? ==>
                r.record == Record(h.publicKey(v.keys[Read(v, id).name]), body,
                                   h.sign(v.keys[Read(v, id).name], Read(v, id).params, body)))
            && ((Legible(v, id) && Read(v, id).name in v.keys && !SeenIllegal(h, Read(v, id), call.replicas, body)
                 && Read(v, id).origin != call.origin) ==> Handled(h, v, call) == (v, Refused(WrongOrigin)))
  {
    var Sign(id, body) := call.request;
    LoadsGame(v, id);
    if Legible(v, id) {
      var rec := Read(v, id);
      assert LocallyIllegal(h, rec, call.replicas, body) <==> SeenIllegal(h, rec, call.replicas, body);
      DecidesSign(h, rec, body, call.origin);
    }
  }

  /** What a granted signature leaves on record: a move becomes the counter, other statements nothing. */
  ghost function Counted(h: Host, rec: GameRecord, body: Body): GameRecord {
    if body.Move? then rec.(lastSignedPly := body.ply, lastMoveBodyHash := h.bodyHash(body)) else rec
  }

  /** And that is written first, whether or not it is reported; a refusal for any other reason writes
      nothing. */
  lemma SignStores(h: Host, v: Vault, call: Call)
    requires call.request.Sign?
    ensures var Sign(id, body) := call.request;
            var (v', r) := Handled(h, v, call);
            if Legible(v, id) && Read(v, id).origin == call.origin && Read(v, id).name in v.keys
               && !SeenIllegal(h, Read(v, id), call.replicas, body) && MaySign(h, Read(v, id), body)
            then Stores(h, v, v', Counted(h, Read(v, id), body), call.fates)
                 && (!r.Signed? ==> r == Refused(StoreFailed))
            else v' == v && r.Refused?
  {
    var Sign(id, body) := call.request;
    LoadsGame(v, id);
    if Legible(v, id) {
      var rec := Read(v, id);
      assert LocallyIllegal(h, rec, call.replicas, body) <==> SeenIllegal(h, rec, call.replicas, body);
      DecidesSign(h, rec, body, call.origin);
      StoreMeans(h, v, Counted(h, rec, body), call.fates);
    }
  }

  lemma DecidesSign(h: Host, rec: GameRecord, body: Body, origin: Option<Origin>)
    requires rec.format == 3
    ensures DecideSign(h, rec, body, origin).Ok? <==> rec.origin == origin && MaySign(h, rec, body)
    ensures rec.origin != origin ==> DecideSign(h, rec, body, origin) == Err(WrongOrigin)
    ensures DecideSign(h, rec, body, origin).Ok? ==>
              DecideSign(h, rec, body, origin).value == Counted(h, rec, body)
  {
  }

  // ---- Binding, rebinding, creating, listing ----

  /** The record a first bind writes. */
  ghost predicate Fresh(h: Host, v: Vault, call: Call, rec: GameRecord)
    requires call.request.BindGame? && call.request.name in v.keys
  {
    var BindGame(name, params, contract) := call.request;
    && rec.format == 3 && rec.name == name && rec.params == params && rec.contract == contract && rec.previous == None
    && rec.origin == call.origin && rec.lastSignedPly == 0
    && rec.side == (if h.publicKey(v.keys[name]) == params.white then White else Black)
    && rec.entropy == (if name in v.qualities then v.qualities[name] else Degraded)
  }

  /** A bind is granted to the label's owner, either again for the game the label is bound to, or afresh
      with a key that plays in the game, unless another label holds that game here. */
  lemma BoundIff(h: Host, v: Vault, call: Call)
    requires call.request.BindGame? && Filed(h, v)
    ensures var BindGame(name, params, contract) := call.request;
            var (v', r) := Handled(h, v, call);
            var id := h.gameId(params);
            && (r.Bound? <==>
                && name in v.keys && Owns(v, name, call.origin) && BothReported(call.fates)
                && (if Indexed(v, name) then v.binds[name] == id && Read(v, id).origin == call.origin
                    else (Legible(v, id) ==> Read(v, id).name == name)
                         && h.publicKey(v.keys[name]) in {params.white, params.black}))
            && (r.Bound? ==>
                r.gameId == id && id in v'.games
                && if Indexed(v, name) then v'.games[id] == Read(v, id) else Fresh(h, v, call, v'.games[id]))
            && (v' == v || (name in v.keys && Owns(v, name, call.origin)
                            && exists rec :: Stores(h, v, v', rec, call.fates)
                                             && (if Indexed(v, name) then rec == Read(v, v.binds[name])
                                                 else Fresh(h, v, call, rec))))
            && (!r.Bound? ==> r.Refused? && (v' != v ==> r == Refused(StoreFailed)))
            && (name in v.keys && !Owns(v, name, call.origin) ==> (v', r) == (v, Refused(WrongOrigin)))
  {
    var BindGame(name, params, contract) := call.request;
    LoadsBound(v, name);
    LoadsGame(v, h.gameId(params));
    assert Owns(v, name, call.origin) <==> v.Owner(name) == call.origin;
    if name in v.keys && Owns(v, name, call.origin) {
      DecidesBind(h, v, call);
      var quality := if name in v.qualities then v.qualities[name] else Degraded;
      var d := DecideBind(h, v.LoadBound(name), name, h.publicKey(v.keys[name]), params, contract, quality,
                          call.origin);
      if d.Ok? {
        StoreMeans(h, v, d.value, call.fates);
      }
    }
  }

  lemma DecidesBind(h: Host, v: Vault, call: Call)
    requires call.request.BindGame? && Filed(h, v) && call.request.name in v.keys
    ensures var BindGame(name, params, contract) := call.request;
            var quality := if name in v.qualities then v.qualities[name] else Degraded;
            var d := DecideBind(h, v.LoadBound(name), name, h.publicKey(v.keys[name]), params, contract, quality,
                                call.origin);
            if Indexed(v, name) then
              (d.Ok? <==> v.binds[name] == h.gameId(params) && Read(v, v.binds[name]).origin == call.origin)
              && (d.Ok? ==> d.value == Read(v, v.binds[name]))
            else
              (d.Ok? <==> h.publicKey(v.keys[name]) in {params.white, params.black})
              && (d.Ok? ==> Fresh(h, v, call, d.value))
  {
    LoadsBound(v, call.request.name);
  }

  /** The record pointed at another contract; pointing at the same one changes nothing. */
  ghost function Moved(rec: GameRecord, contract: ContractId): GameRecord {
    if rec.contract == contract then rec else rec.(contract := contract, previous := Some(rec.contract))
  }

  /** A rebind is granted to the caller who bound the game, and changes only the two addresses. */
  lemma ReboundIff(h: Host, v: Vault, call: Call)
    requires call.request.Rebind? && Filed(h, v)
    ensures var Rebind(name, contract) := call.request;
            var (v', r) := Handled(h, v, call);
            && (r.Bound? <==>
                && Indexed(v, name) && Read(v, v.binds[name]).origin == call.origin
                && Read(v, v.binds[name]).name == name && BothReported(call.fates))
            && (r.Bound? ==>
                var rec := Read(v, v.binds[name]);
                r.gameId == v.binds[name] && r.gameId in v'.games
                && v'.games[r.gameId] == Moved(rec, contract))
            && (if Indexed(v, name) && Read(v, v.binds[name]).origin == call.origin
                   && Read(v, v.binds[name]).name == name
                then Stores(h, v, v', Moved(Read(v, v.binds[name]), contract), call.fates)
                     && (!r.Bound? ==> r == Refused(StoreFailed))
                else v' == v && r.Refused?)
            && (Indexed(v, name) && Read(v, v.binds[name]).origin != call.origin ==> r == Refused(WrongOrigin))
  {
    var Rebind(name, contract) := call.request;
    LoadsBound(v, name);
    if Indexed(v, name) {
      assert h.gameId(Read(v, v.binds[name]).params) == v.binds[name];
      StoreMeans(h, v, Moved(Read(v, v.binds[name]), contract), call.fates);
    }
  }

  /** A name is given once. The key, how it was made, and who asked are then on record. */
  lemma CreatedIff(h: Host, v: Vault, call: Call)
    requires call.request.CreateGameKey?
    ensures var CreateGameKey(name, derived) := call.request;
            var (v', r) := Handled(h, v, call);
            && (r.GameKey? <==>
                && name !in v.keys && derived.Ok? && BothReported(call.fates)
                && (call.origin.Some? ==> call.fates.third == Written))
            && (r.GameKey? ==>
                var (seed, quality) := derived.value;
                && r == GameKey(name, h.publicKey(seed), quality)
                && name in v'.keys && v'.keys[name] == seed
                && name in v'.qualities && v'.qualities[name] == quality
                && (name !in v.owners || call.origin.Some? ==> Owns(v', name, call.origin)))
            && (name in v.keys ==> (v', r) == (v, Refused(LabelExists)))
            && (name !in v.keys && derived.Err? ==> (v', r) == (v, Refused(derived.error)))
            && (!r.GameKey? ==> r.Refused?)
  {
  }

  /** Three writes, each made only once the one before is reported: the key, how it was made, its owner. */
  ghost predicate Creates(v: Vault, v': Vault, name: Label, seed: Seed, quality: Entropy, call: Call) {
    var Fates(first, second, third) := call.fates;
    && v'.games == v.games && v'.binds == v.binds
    && v'.keys == (if first == Lost then v.keys else v.keys[name := seed])
    && v'.qualities == (if first == Written && second != Lost then v.qualities[name := quality] else v.qualities)
    && v'.owners == (if first == Written && second == Written && third != Lost && call.origin.Some?
                     then v.owners[name := call.origin.value] else v.owners)
  }

  lemma CreateStores(h: Host, v: Vault, call: Call)
    requires call.request.CreateGameKey? && call.request.name !in v.keys && call.request.derived.Ok?
    ensures var CreateGameKey(name, derived) := call.request;
            Creates(v, Handled(h, v, call).0, name, derived.value.0, derived.value.1, call)
  {
    var CreateGameKey(name, derived) := call.request;
    var (seed, quality) := derived.value;
    var v1 := KeySet(v, name, seed, call.fates.first);
    SettersMean(v, name, seed, quality, 0, call.fates.first);
    if call.fates.first == Written {
      DescribeStores(h, v1, call.origin, name, seed, quality, call.fates);
    }
  }

  /** Each setter writes its own field, or nothing. */
  lemma SettersMean(v: Vault, name: Label, seed: Seed, quality: Entropy, origin: Origin, fate: Fate)
    ensures KeySet(v, name, seed, fate) ==
            Vault(if fate == Lost then v.keys else v.keys[name := seed], v.qualities, v.owners, v.games, v.binds)
    ensures QualitySet(v, name, quality, fate) ==
            Vault(v.keys, if fate == Lost then v.qualities else v.qualities[name := quality], v.owners, v.games,
                  v.binds)
    ensures OwnerSet(v, name, origin, fate) ==
            Vault(v.keys, v.qualities, if fate == Lost then v.owners else v.owners[name := origin], v.games, v.binds)
  {
  }

  lemma DescribeStores(h: Host, v: Vault, origin: Option<Origin>, name: Label, seed: Seed, quality: Entropy,
                       fates: Fates)
    ensures var v' := Described(h, v, origin, name, seed, quality, fates).0;
            && v'.games == v.games && v'.binds == v.binds && v'.keys == v.keys
            && v'.qualities == (if fates.second != Lost then v.qualities[name := quality] else v.qualities)
            && v'.owners == (if fates.second == Written && fates.third != Lost && origin.Some?
                             then v.owners[name := origin.value] else v.owners)
  {
    DescribedIs(h, v, origin, name, seed, quality, fates);
    SettersMean(v, name, seed, quality, 0, fates.second);
    if fates.second == Written && origin.Some? {
      SettersMean(QualitySet(v, name, quality, fates.second), name, seed, quality, origin.value, fates.third);
    }
  }

  lemma DescribedIs(h: Host, v: Vault, origin: Option<Origin>, name: Label, seed: Seed, quality: Entropy,
                    fates: Fates)
    ensures var v2 := QualitySet(v, name, quality, fates.second);
            Described(h, v, origin, name, seed, quality, fates).0 ==
            if fates.second == Written && origin.Some? then OwnerSet(v2, name, origin.value, fates.third) else v2
  {
  }

  /** A listing shows the caller's own labels and nobody else's, each with what is on record of it. */
  lemma ListedIff(h: Host, v: Vault, origin: Option<Origin>, s: GameSummary)
    ensures s in Listed(h, v, origin) <==>
            && s.name in v.keys && Owns(v, s.name, origin) && s.publicKey == h.publicKey(v.keys[s.name])
            && if Indexed(v, s.name) then
                 var rec := Read(v, v.binds[s.name]);
                 && s.gameId == Some(h.gameId(rec.params)) && s.side == Some(rec.side)
                 && s.lastSignedPly == rec.lastSignedPly && s.entropy == Some(rec.entropy)
                 && s.params == Some(rec.params) && s.contract == Some(rec.contract) && s.previous == rec.previous
               else
                 && s.gameId == None && s.side == None && s.lastSignedPly == 0
                 && s.entropy == (if s.name in v.qualities then Some(v.qualities[s.name]) else None)
                 && s.params == None && s.contract == None && s.previous == None
  {
    ListingIsPrivate(h, v, origin, s);
    LoadsBound(v, s.name);
    assert Owns(v, s.name, origin) <==> v.Owner(s.name) == origin;
  }

  /** No owner is on record for a label without a key, so a created label is its creator's. */
  ghost predicate OwnersKeyed(v: Vault) {
    v.owners.Keys <= v.keys.Keys
  }

  lemma CallKeepsOwnersKeyed(h: Host, v: Vault, call: Call)
    requires OwnersKeyed(v)
    ensures OwnersKeyed(Handled(h, v, call).0)
    ensures call.request.CreateGameKey? && Handled(h, v, call).1.GameKey? ==>
              Owns(Handled(h, v, call).0, call.request.name, call.origin)
  {
    if call.request.CreateGameKey? {
      CreatedIff(h, v, call);
      CreateKeepsOwnersKeyed(h, v, call);
    } else {
      OthersKeepLabels(h, v, call);
    }
  }

  lemma CreateKeepsOwnersKeyed(h: Host, v: Vault, call: Call)
    requires OwnersKeyed(v) && call.request.CreateGameKey?
    ensures OwnersKeyed(Handled(h, v, call).0)
  {
    if call.request.name !in v.keys && call.request.derived.Ok? {
      CreateStores(h, v, call);
    }
  }

  // ---- Over whole runs ----

  ghost function VaultAfter(h: Host, v: Vault, calls: seq<Call>): Vault {
    if calls == [] then v else Handled(h, VaultAfter(h, v, calls[..|calls| - 1]), calls[|calls| - 1]).0
  }

  /** A label keeps its key and its owner, whatever is asked afterwards. */
  lemma {:induction false} LabelKeepsOwner(h: Host, v: Vault, calls: seq<Call>, name: Label)
    requires name in v.keys
    ensures var v' := VaultAfter(h, v, calls);
            && name in v'.keys && v'.keys[name] == v.keys[name]
            && (name in v'.owners <==> name in v.owners)
            && (name in v.owners ==> v'.owners[name] == v.owners[name])
  {
    if calls != [] {
      var n := |calls| - 1;
      LabelKeepsOwner(h, v, calls[..n], name);
      CallKeepsOwner(h, VaultAfter(h, v, calls[..n]), calls[n], name);
    }
  }

  lemma CallKeepsOwner(h: Host, v: Vault, call: Call, name: Label)
    requires name in v.keys
    ensures var v' := Handled(h, v, call).0;
            && name in v'.keys && v'.keys[name] == v.keys[name]
            && (name in v'.owners <==> name in v.owners)
            && (name in v.owners ==> v'.owners[name] == v.owners[name])
  {
    if call.request.CreateGameKey? {
      var CreateGameKey(other, derived) := call.request;
      if other !in v.keys && derived.Ok? {
        CreateKeepsOwner(h, v, call.origin, other, derived.value.0, derived.value.1, call.fates, name);
      }
    } else {
      OthersKeepLabels(h, v, call);
    }
  }

  /** Only creating a key writes keys or owners. */
  lemma OthersKeepLabels(h: Host, v: Vault, call: Call)
    requires !call.request.CreateGameKey?
    ensures Handled(h, v, call).0.keys == v.keys && Handled(h, v, call).0.owners == v.owners
  {
    forall rec, fates ensures StoredGame(h, v, rec, fates).0.keys == v.keys
                              && StoredGame(h, v, rec, fates).0.owners == v.owners {
    }
  }

  lemma CreateKeepsOwner(h: Host, v: Vault, origin: Option<Origin>, other: Label, seed: Seed, quality: Entropy,
                         fates: Fates, name: Label)
    requires name in v.keys && other !in v.keys
    ensures var v' := Created(h, v, origin, other, Ok((seed, quality)), fates).0;
            && name in v'.keys && v'.keys[name] == v.keys[name]
            && (name in v'.owners <==> name in v.owners)
            && (name in v.owners ==> v'.owners[name] == v.owners[name])
  {
  }

  /** The game is on record for this caller, under a label whose index works. */
  ghost predicate Recorded(v: Vault, id: GameId, origin: Option<Origin>) {
    Legible(v, id) && Read(v, id).origin == origin && Indexed(v, Read(v, id).name)
  }

  /** Once it is, it stays so: nobody else can ever bind, rebind or sign their way in. */
  lemma CallKeepsRecorded(h: Host, v: Vault, call: Call, id: GameId, origin: Option<Origin>)
    requires Filed(h, v) && Recorded(v, id, origin)
    ensures Filed(h, Handled(h, v, call).0) && Recorded(Handled(h, v, call).0, id, origin)
  {
    LoadsGame(v, id);
    match call.request
    case CreateGameKey(_, _) => CreateOnlyAdds(h, v, call);
    case BindGame(_, _, _) => BindKeepsRecorded(h, v, call, id, origin);
    case Rebind(name, contract) =>
      LoadsBound(v, name);
      if DecideRebind(v.LoadBound(name), name, contract, call.origin).Ok? {
        var rec := DecideRebind(v.LoadBound(name), name, contract, call.origin).value;
        assert h.gameId(rec.params) == v.binds[name];
        StoreKeepsRecorded(h, v, rec, call.fates, id, origin);
      }
    case Sign(other, body) =>
      LoadsGame(v, other);
      if Legible(v, other) {
        DecidesSign(h, Read(v, other), body, call.origin);
        if DecideSign(h, Read(v, other), body, call.origin).Ok? {
          assert h.gameId(Read(v, other).params) == other;
          StoreKeepsRecorded(h, v, DecideSign(h, Read(v, other), body, call.origin).value, call.fates, id, origin);
        }
      }
    case ListGames =>
  }

  lemma BindKeepsRecorded(h: Host, v: Vault, call: Call, id: GameId, origin: Option<Origin>)
    requires Filed(h, v) && Recorded(v, id, origin) && call.request.BindGame?
    ensures Filed(h, Handled(h, v, call).0) && Recorded(Handled(h, v, call).0, id, origin)
  {
    var BindGame(name, params, contract) := call.request;
    LoadsBound(v, name);
    LoadsGame(v, h.gameId(params));
    if name in v.keys {
      DecidesBind(h, v, call);
      var quality := if name in v.qualities then v.qualities[name] else Degraded;
      var d := DecideBind(h, v.LoadBound(name), name, h.publicKey(v.keys[name]), params, contract, quality,
                          call.origin);
      if d.Ok? && (Indexed(v, name) || h.gameId(params) != id) {
        StoreKeepsRecorded(h, v, d.value, call.fates, id, origin);
      }
    }
  }

  /** Writing another game's record, or this one's without changing its caller. */
  lemma StoreKeepsRecorded(h: Host, v: Vault, rec: GameRecord, fates: Fates, id: GameId, origin: Option<Origin>)
    requires Filed(h, v) && Recorded(v, id, origin) && rec.format == 3
    requires h.gameId(rec.params) == id ==> rec.origin == origin && rec.name == Read(v, id).name
    ensures Filed(h, StoredGame(h, v, rec, fates).0) && Recorded(StoredGame(h, v, rec, fates).0, id, origin)
  {
    var v' := StoredGame(h, v, rec, fates).0;
    StoredGameWrites(h, v, rec, fates);
    StoredGameLoads(h, v, rec, fates);
    LoadsGame(v, id);
    LoadsGame(v', id);
    LoadsBound(v, Read(v, id).name);
    LoadsBound(v', Read(v', id).name);
  }

  /** Every release is to the caller on record, and puts the game on record for that caller. */
  lemma ReleaseRecords(h: Host, v: Vault, call: Call)
    requires Filed(h, v) && call.request.Sign? && Handled(h, v, call).1.Signed?
    ensures Legible(v, call.request.gameId) && Read(v, call.request.gameId).origin == call.origin
    ensures Filed(h, Handled(h, v, call).0) && Recorded(Handled(h, v, call).0, call.request.gameId, call.origin)
  {
    var Sign(id, body) := call.request;
    SignedIff(h, v, call);
    LoadsGame(v, id);
    DecidesSign(h, Read(v, id), body, call.origin);
    var updated := DecideSign(h, Read(v, id), body, call.origin).value;
    var v' := Handled(h, v, call).0;
    assert h.gameId(updated.params) == id;
    StoredGameWrites(h, v, updated, call.fates);
    StoredGameLoads(h, v, updated, call.fates);
    LoadsGame(v', id);
    LoadsBound(v', updated.name);
  }

  lemma CallKeepsFiled(h: Host, v: Vault, call: Call)
    requires Filed(h, v)
    ensures Filed(h, Handled(h, v, call).0)
  {
    match call.request
    case CreateGameKey(_, _) => CreateOnlyAdds(h, v, call);
    case BindGame(_, _, _) => BindKeeps(h, v, {}, call);
    case Rebind(_, _) => RebindKeeps(h, v, {}, call);
    case Sign(id, body) =>
      LoadsGame(v, id);
      if Legible(v, id) {
        DecidesSign(h, Read(v, id), body, call.origin);
        if DecideSign(h, Read(v, id), body, call.origin).Ok? {
          StoredGameLoads(h, v, DecideSign(h, Read(v, id), body, call.origin).value, call.fates);
        }
      }
    case ListGames =>
  }

  lemma {:induction false} RunKeepsFiled(h: Host, v: Vault, calls: seq<Call>)
    requires Filed(h, v)
    ensures Filed(h, VaultAfter(h, v, calls))
  {
    if calls != [] {
      var n := |calls| - 1;
      RunKeepsFiled(h, v, calls[..n]);
      CallKeepsFiled(h, VaultAfter(h, v, calls[..n]), calls[n]);
    }
  }

  lemma {:induction false} RunKeepsRecorded(h: Host, v: Vault, calls: seq<Call>, from: nat, id: GameId,
                                           origin: Option<Origin>)
    requires Filed(h, v) && from <= |calls| && Recorded(VaultAfter(h, v, calls[..from]), id, origin)
    ensures Recorded(VaultAfter(h, v, calls), id, origin)
    decreases |calls|
  {
    if from == |calls| {
      assert calls[..from] == calls;
    } else {
      var n := |calls| - 1;
      var init, before := calls[..n], VaultAfter(h, v, calls[..n]);
      assert init[..from] == calls[..from];
      RunKeepsRecorded(h, v, init, from, id, origin);
      RunKeepsFiled(h, v, init);
      CallKeepsRecorded(h, before, calls[n], id, origin);
      assert VaultAfter(h, v, calls) == Handled(h, before, calls[n]).0;
    }
  }

  /** Call `k` of the run lets a signature out for game `id`. */
  ghost predicate Releases(h: Host, v: Vault, calls: seq<Call>, k: nat, id: GameId)
    requires k < |calls|
  {
    && calls[k].request.Sign? && calls[k].request.gameId == id
    && Handled(h, VaultAfter(h, v, calls[..k]), calls[k]).1.Signed?
  }

  /** Over any run, with any failures, all the signatures ever let out for a game went to one caller: the
      one on record when each was released. */
  lemma OneCallerPerGame(h: Host, v: Vault, calls: seq<Call>, j: nat, k: nat, id: GameId)
    requires Filed(h, v) && j < k < |calls| && Releases(h, v, calls, j, id) && Releases(h, v, calls, k, id)
    ensures calls[j].origin == calls[k].origin
    ensures var before := VaultAfter(h, v, calls[..k]);
            Legible(before, id) && Read(before, id).origin == calls[k].origin
  {
    var upto := calls[..k];
    RunKeepsFiled(h, v, calls[..j]);
    RunKeepsFiled(h, v, upto);
    ReleaseRecords(h, VaultAfter(h, v, calls[..j]), calls[j]);
    assert calls[..j + 1][..j] == calls[..j] && upto[..j + 1] == calls[..j + 1];
    RunKeepsRecorded(h, v, upto, j + 1, id, calls[j].origin);
    ReleaseRecords(h, VaultAfter(h, v, upto), calls[k]);
  }
}
