/** One signature per ply, end to end: over any run of requests and any failures of the store, an
    honest player's delegate never releases the evidence that would forfeit their game. */
module OneSignature {
  import opened Types
  import opened Project
  import opened Delegate

  type Releases = set<(GameId, Record)>

  /** Every stored game record sits under its own game id. */
  ghost predicate Filed(h: Host, v: Vault) {
    forall id | id in v.games :: h.gameId(v.games[id].params) == id
  }

  /** The stored record accounts for a move that was released. */
  ghost predicate Covers(h: Host, v: Vault, id: GameId, move: Record)
    requires move.body.Move?
  {
    && v.LoadGame(id).Some?
    && (var rec := v.LoadGame(id).value;
        && 1 <= move.body.ply <= MAX_PLY && ColorAtPly(move.body.ply) == rec.side
        && move.body.ply <= rec.lastSignedPly
        && (move.body.ply == rec.lastSignedPly ==> h.bodyHash(move.body) == rec.lastMoveBodyHash)
        && rec.name in v.keys && move.signer == h.publicKey(v.keys[rec.name])
        && v.LoadBound(rec.name).Some?)
  }

  ghost predicate OneBodyPerPly(released: Releases) {
    forall x, y | x in released && y in released && x.0 == y.0 && x.1.body.Move? && y.1.body.Move?
                  && x.1.body.ply == y.1.body.ply :: x.1.body == y.1.body
  }

  ghost predicate Inv(h: Host, v: Vault, released: Releases) {
    && Filed(h, v)
    && (forall x | x in released && x.1.body.Move? :: Covers(h, v, x.0, x.1))
    && OneBodyPerPly(released)
  }

  /** The signature a response lets out, if any. */
  ghost function Released(call: Call, r: Response): Releases {
    if call.request.Sign? && r.Signed? then {(call.request.gameId, r.record)} else {}
  }

  /** What a game write does to what can be loaded, game by game. */
  lemma StoredGameWrites(h: Host, v: Vault, rec: GameRecord, fates: Fates)
    requires rec.format == GAME_RECORD_FORMAT
    ensures var (v', ok) := StoredGame(h, v, rec, fates);
            && v'.keys == v.keys
            && (forall id | id != h.gameId(rec.params) :: v'.LoadGame(id) == v.LoadGame(id))
            && (v'.LoadGame(h.gameId(rec.params)) in {v.LoadGame(h.gameId(rec.params)), Some(rec)})
            && (ok ==> v'.LoadGame(h.gameId(rec.params)) == Some(rec))
  {
  }

  /** Nothing a handler writes makes a loadable record unloadable. */
  lemma StoredGameLoads(h: Host, v: Vault, rec: GameRecord, fates: Fates)
    requires Filed(h, v) && rec.format == GAME_RECORD_FORMAT
    ensures var (v', ok) := StoredGame(h, v, rec, fates);
            && Filed(h, v')
            && (forall id | v.LoadGame(id).Some? :: v'.LoadGame(id).Some?)
            && (forall name | v.LoadBound(name).Some? :: v'.LoadBound(name).Some?)
            && (ok ==> v'.LoadBound(rec.name).Some?)
  {
    StoredGameWrites(h, v, rec, fates);
  }

  /** Rewriting a record whose signing state did not go backwards keeps every release covered. */
  lemma StoreKeepsCover(h: Host, v: Vault, released: Releases, old': GameRecord, rec: GameRecord, fates: Fates)
    requires Inv(h, v, released)
    requires v.LoadGame(h.gameId(rec.params)) == Some(old')
    requires rec.format == GAME_RECORD_FORMAT && rec.name == old'.name && rec.side == old'.side
    requires old'.lastSignedPly < rec.lastSignedPly
             || (old'.lastSignedPly == rec.lastSignedPly && old'.lastMoveBodyHash == rec.lastMoveBodyHash)
    ensures Inv(h, StoredGame(h, v, rec, fates).0, released)
  {
    StoredGameWrites(h, v, rec, fates);
    StoredGameLoads(h, v, rec, fates);
  }

  /** A fresh record is only ever written for a game no move was released in. */
  lemma FreshKeepsCover(h: Host, v: Vault, released: Releases, rec: GameRecord, fates: Fates)
    requires Inv(h, v, released) && rec.format == GAME_RECORD_FORMAT
    requires v.LoadBound(rec.name).None?
    requires v.LoadGame(h.gameId(rec.params)).Some? ==> v.LoadGame(h.gameId(rec.params)).value.name == rec.name
    ensures Inv(h, StoredGame(h, v, rec, fates).0, released)
  {
    StoredGameWrites(h, v, rec, fates);
    StoredGameLoads(h, v, rec, fates);
    forall x | x in released && x.1.body.Move? ensures x.0 != h.gameId(rec.params) {
      assert Covers(h, v, x.0, x.1);
    }
  }

  lemma BindKeeps(h: Host, v: Vault, released: Releases, call: Call)
    requires Inv(h, v, released) && call.request.BindGame?
    ensures Inv(h, Handled(h, v, call).0, released)
  {
    var BindGame(name, params, contract) := call.request;
    var existing, id := v.LoadBound(name), h.gameId(params);
    if name in v.keys && v.Owner(name) == call.origin
       && !(existing.None? && v.LoadGame(id).Some? && v.LoadGame(id).value.name != name) {
      var quality := if name in v.qualities then v.qualities[name] else Degraded;
      var decided := DecideBind(h, existing, name, h.publicKey(v.keys[name]), params, contract, quality, call.origin);
      if decided.Ok? {
        if existing.Some? {
          assert h.gameId(existing.value.params) == v.binds[name];
          StoreKeepsCover(h, v, released, existing.value, existing.value, call.fates);
        } else {
          FreshKeepsCover(h, v, released, decided.value, call.fates);
        }
      }
    }
  }

  /** The label's index leads to a record this build can read. */
  ghost predicate Readable(v: Vault, name: Label) {
    name in v.binds && v.binds[name] in v.games && v.games[v.binds[name]].format in {2, GAME_RECORD_FORMAT}
  }

  /** A bind that gets as far as writing the record keeps the counter of the game exactly when the
      label's index leads to a readable record. Behind an unknown format, or a lost index, it starts
      over from zero. */
  lemma BindKeepsCounterIff(h: Host, v: Vault, call: Call)
    requires Filed(h, v) && call.request.BindGame? && !call.fates.first.Lost?
    requires h.gameId(call.request.params) in v.games && v.games[h.gameId(call.request.params)].lastSignedPly > 0
    requires Handled(h, v, call).1 in {Bound(h.gameId(call.request.params)), Refused(StoreFailed)}
    ensures var id, v' := h.gameId(call.request.params), Handled(h, v, call).0;
            && id in v'.games
            && v'.games[id].lastSignedPly ==
               (if Readable(v, call.request.name) then v.games[id].lastSignedPly else 0)
  {
    var BindGame(name, params, contract) := call.request;
    var id, existing := h.gameId(params), v.LoadBound(name);
    LoadsIff(v, name);
    var quality := if name in v.qualities then v.qualities[name] else Degraded;
    var decided := DecideBind(h, existing, name, h.publicKey(v.keys[name]), params, contract, quality, call.origin);
    assert decided.Ok?;
    if existing.Some? {
      assert h.gameId(existing.value.params) == v.binds[name];
    }
  }

  lemma LoadsIff(v: Vault, name: Label)
    ensures v.LoadBound(name).Some? <==> Readable(v, name)
    ensures Readable(v, name) ==> v.LoadBound(name).value.lastSignedPly == v.games[v.binds[name]].lastSignedPly
  {
  }

  lemma RebindKeeps(h: Host, v: Vault, released: Releases, call: Call)
    requires Inv(h, v, released) && call.request.Rebind?
    ensures Inv(h, Handled(h, v, call).0, released)
  {
    var Rebind(name, contract) := call.request;
    var existing := v.LoadBound(name);
    var decided := DecideRebind(existing, name, contract, call.origin);
    if decided.Ok? {
      assert h.gameId(existing.value.params) == v.binds[name];
      StoreKeepsCover(h, v, released, existing.value, decided.value, call.fates);
    }
  }

  lemma CreateKeeps(h: Host, v: Vault, released: Releases, call: Call)
    requires Inv(h, v, released) && call.request.CreateGameKey?
    ensures Inv(h, Handled(h, v, call).0, released)
  {
    var v' := Handled(h, v, call).0;
    CreateOnlyAdds(h, v, call);
    forall x | x in released && x.1.body.Move? ensures Covers(h, v', x.0, x.1) {
      assert Covers(h, v, x.0, x.1);
    }
  }

  ghost predicate OnlyAddsKeys(v: Vault, v': Vault) {
    && v'.games == v.games && v'.binds == v.binds
    && forall name | name in v.keys :: name in v'.keys && v'.keys[name] == v.keys[name]
  }

  lemma DescribedOnlyAdds(h: Host, v: Vault, origin: Option<Origin>, name: Label, seed: Seed, quality: Entropy,
                          fates: Fates)
    ensures OnlyAddsKeys(v, Described(h, v, origin, name, seed, quality, fates).0)
  {
  }

  lemma CreateOnlyAdds(h: Host, v: Vault, call: Call)
    requires call.request.CreateGameKey?
    ensures OnlyAddsKeys(v, Handled(h, v, call).0)
  {
    var CreateGameKey(name, derived) := call.request;
    if name !in v.keys && derived.Ok? {
      var (seed, quality) := derived.value;
      var v1 := KeySet(v, name, seed, call.fates.first);
      DescribedOnlyAdds(h, v1, call.origin, name, seed, quality, call.fates);
    }
  }

  lemma SignKeeps(h: Host, v: Vault, released: Releases, call: Call)
    requires h.Sound() && Inv(h, v, released) && call.request.Sign?
    ensures var (v', r) := Handled(h, v, call); Inv(h, v', released + Released(call, r))
  {
    var Sign(id, body) := call.request;
    var loaded := v.LoadGame(id);
    var (v', r) := Handled(h, v, call);
    if loaded.Some? && loaded.value.name in v.keys && !LocallyIllegal(h, loaded.value, call.replicas, body)
       && DecideSign(h, loaded.value, body, call.origin).Ok? {
      var updated := DecideSign(h, loaded.value, body, call.origin).value;
      StoreKeepsCover(h, v, released, loaded.value, updated, call.fates);
      StoredGameWrites(h, v, updated, call.fates);
      StoredGameLoads(h, v, updated, call.fates);
      if r.Signed? {
        if body.Move? {
          OnlyThisBody(h, v, released, loaded.value, id, body, call.origin);
        }
        OneMoreRelease(h, v', released, id, r.record);
      }
    }
    assert !r.Signed? ==> released + Released(call, r) == released;
  }

  lemma OneMoreRelease(h: Host, v: Vault, released: Releases, id: GameId, rec: Record)
    requires Inv(h, v, released) && (rec.body.Move? ==> Covers(h, v, id, rec))
    requires rec.body.Move? ==>
               forall x | x in released && x.0 == id && x.1.body.Move? && x.1.body.ply == rec.body.ply ::
                 x.1.body == rec.body
    ensures Inv(h, v, released + {(id, rec)})
  {
  }

  /** Whatever was released before at this ply is the body being signed now. */
  lemma OnlyThisBody(h: Host, v: Vault, released: Releases, rec: GameRecord, id: GameId, body: Body,
                     origin: Option<Origin>)
    requires h.Sound() && Inv(h, v, released) && v.LoadGame(id) == Some(rec)
    requires body.Move? && DecideSign(h, rec, body, origin).Ok?
    ensures forall x | x in released && x.0 == id && x.1.body.Move? && x.1.body.ply == body.ply :: x.1.body == body
  {
    forall x | x in released && x.0 == id && x.1.body.Move? && x.1.body.ply == body.ply ensures x.1.body == body {
      assert Covers(h, v, x.0, x.1);
      assert h.unhash(h.bodyHash(x.1.body)) == x.1.body && h.unhash(h.bodyHash(body)) == body;
    }
  }

  lemma HandleKeeps(h: Host, v: Vault, released: Releases, call: Call)
    requires h.Sound() && Inv(h, v, released)
    ensures var (v', r) := Handled(h, v, call); Inv(h, v', released + Released(call, r))
  {
    var (v', r) := Handled(h, v, call);
    match call.request
    case CreateGameKey(_, _) =>
      CreateKeeps(h, v, released, call);
      assert released + {} == released;
    case BindGame(_, _, _) =>
      BindKeeps(h, v, released, call);
      assert released + {} == released;
    case Rebind(_, _) =>
      RebindKeeps(h, v, released, call);
      assert released + {} == released;
    case Sign(_, _) => SignKeeps(h, v, released, call);
    case ListGames => assert released + {} == released;
  }

  /** The store and every signature ever let out, after a run of calls. */
  ghost function RunOf(h: Host, v: Vault, before: Releases, calls: seq<Call>): (Vault, Releases) {
    if calls == [] then (v, before) else
      var (v1, released) := RunOf(h, v, before, calls[..|calls| - 1]);
      var (v2, r) := Handled(h, v1, calls[|calls| - 1]);
      (v2, released + Released(calls[|calls| - 1], r))
  }

  /** A store no signature has left yet is safe, whatever formats its records are in. */
  lemma NewStoreIsSafe(h: Host, v: Vault)
    requires Filed(h, v)
    ensures Inv(h, v, {})
  {
  }

  /** From an empty store, or one carried over from an earlier generation, after any run: at most
      one move body per game and ply was ever released, each of the bound side's parity and within
      range, all by the one key, and the stored counter is at or past every one of them. */
  lemma {:induction false} OneSignaturePerPly(h: Host, v: Vault, before: Releases, calls: seq<Call>)
    requires h.Sound() && Inv(h, v, before)
    ensures Inv(h, RunOf(h, v, before, calls).0, RunOf(h, v, before, calls).1)
  {
    if calls != [] {
      var n := |calls| - 1;
      OneSignaturePerPly(h, v, before, calls[..n]);
      var (v1, released) := RunOf(h, v, before, calls[..n]);
      HandleKeeps(h, v1, released, calls[n]);
    }
  }

  /** Every move in `s` under this key was released by the delegate for this game. */
  ghost predicate AllReleased(g: Game, s: set<RecordId>, key: Key, id: GameId, released: Releases) {
    forall i | i in s && g.says(i).body.Move? && g.says(i).signer == key ::
      exists x :: x in released && x.0 == id && g.Id(x.1) == i
  }

  /** A player all of whose moves came from their delegate is never blamed for a double-sign. */
  lemma HonestPlayerNeverForfeits(h: Host, v: Vault, before: Releases, calls: seq<Call>, params: Params,
                                  s: set<RecordId>, c: Color)
    requires h.Sound() && Inv(h, v, before)
    requires AllReleased(h.game(params), s, params.KeyOf(c), h.gameId(params), RunOf(h, v, before, calls).1)
    ensures !Blamed(h.game(params), s, c)
  {
    var g, released := h.game(params), RunOf(h, v, before, calls).1;
    OneSignaturePerPly(h, v, before, calls);
    forall p: Ply ensures !DoubledAt(g, s, c, p) {
      var moves := MovesAt(g, s, params.KeyOf(c), p);
      forall i, j | i in moves && j in moves ensures i == j {
        var x :| x in released && x.0 == h.gameId(params) && g.Id(x.1) == i;
        var y :| y in released && y.0 == h.gameId(params) && g.Id(y.1) == j;
        assert g.says(g.recordId(x.1.Says())) == x.1.Says();
        assert g.says(g.recordId(y.1.Says())) == y.1.Says();
      }
      AllEqualIsSmall(moves);
    }
  }

  lemma AllEqualIsSmall<T>(s: set<T>)
    requires forall i, j | i in s && j in s :: i == j
    ensures |s| <= 1
  {
    if x :| x in s {
      assert s == {x};
    }
  }

  /** A caller is shown each label it created, once and as it is, and nobody else's. */
  lemma ListingIsPrivate(h: Host, v: Vault, origin: Option<Origin>, s: GameSummary)
    ensures s in Listed(h, v, origin) <==>
            s.name in v.keys && v.Owner(s.name) == origin && s == SummaryOf(h, v, s.name)
  {
  }

  // ---- Retries, partial failures, and what a release is worth ----

  /** The same move can be asked for again, by the same caller, for as long as it is the latest. */
  lemma RetryIsGranted(h: Host, rec: GameRecord, updated: GameRecord, body: Body, origin: Option<Origin>)
    requires DecideSign(h, rec, body, origin) == Ok(updated)
    ensures DecideSign(h, updated, body, origin) == Ok(updated)
  {
  }

  /** A different move at that ply, or any move at an earlier one, never is. */
  lemma OtherMoveIsRefused(h: Host, rec: GameRecord, updated: GameRecord, body: Body, other: Body,
                           origin: Option<Origin>, origin': Option<Origin>)
    requires h.Sound() && body.Move? && other.Move? && DecideSign(h, rec, body, origin) == Ok(updated)
    requires other.ply <= body.ply && other != body
    ensures DecideSign(h, updated, other, origin').Err?
  {
    assert h.unhash(h.bodyHash(body)) == body && h.unhash(h.bodyHash(other)) == other;
  }

  /** Creating a key is not atomic: a reported failure leaves the store untouched exactly when the
      very first write was lost. Otherwise the key stays behind and the name is taken. */
  lemma FailedCreateLeavesNothingIff(h: Host, v: Vault, call: Call)
    requires call.request.CreateGameKey? && call.request.name !in v.keys && call.request.derived.Ok?
    requires Handled(h, v, call).1 == Refused(StoreFailed)
    ensures Handled(h, v, call).0 == v <==> call.fates.first.Lost?
    ensures !call.fates.first.Lost? ==> forall again: Call | again.request == call.request ::
              Handled(h, Handled(h, v, call).0, again).1 == Refused(LabelExists)
  {
    var v' := Handled(h, v, call).0;
    assert call.fates.first.Lost? <==> call.request.name !in v'.keys;
  }

  /** A released record is worth something exactly when its index is within the cap, which the
      delegate checks for moves only. */
  lemma ReleaseVerifiesIff(h: Host, v: Vault, call: Call)
    requires h.Sound() && call.request.Sign? && Handled(h, v, call).1.Signed?
    requires var rec := v.LoadGame(call.request.gameId).value;
             && h.publicKey(v.keys[rec.name]) == rec.params.KeyOf(rec.side)
             && forall b :: h.game(rec.params).signed(Statement(h.publicKey(v.keys[rec.name]), b),
                                                      h.sign(v.keys[rec.name], rec.params, b))
    ensures var rec, body := v.LoadGame(call.request.gameId).value, call.request.body;
            && (h.game(rec.params).Verify(Handled(h, v, call).1.record) <==>
                body.Resign? || body.ply <= MAX_PLY)
            && (body.Move? ==> h.game(rec.params).Verify(Handled(h, v, call).1.record))
  {
  }
}
