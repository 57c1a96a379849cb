/** The signing delegate (common/src/delegate_policy.rs, delegates/adjourn-delegate/src). */
module Delegate {
  import opened Types
  import opened Finite
  import opened State
  import opened Chess
  import opened Project

  type GameId = nat
  type Origin = nat
  type Seed = nat
  type Label = string

  const GAME_RECORD_FORMAT: nat := 3

  datatype Entropy = HostBacked | Degraded

  datatype GameRecord = GameRecord(
    format: nat, name: Label, params: Params, side: Color, origin: Option<Origin>,
    contract: ContractId, previous: Option<ContractId>, entropy: Entropy,
    lastSignedPly: nat, lastMoveBodyHash: nat)

  datatype Refusal =
    | UnknownLabel | LabelExists | UnknownGame | AlreadyBound(gameId: GameId) | KeyNotInParams
    | WrongSide(ours: Color, needs: Color) | PlyAlreadySigned(ply: nat) | PlyOutOfRange(ply: nat, max: nat)
    | WrongOrigin | NotBound | NoEntropy | StaleRecordFormat(found: nat, expected: nat) | StoreFailed
    | IllegalMove

  /** Hashing, key derivation, signing, and the rules of each game. `legal` lists the spellings of
      the legal moves of a position. */
  datatype Host = Host(gameId: Params -> GameId,
                       publicKey: Seed -> Key,
                       bodyHash: Body -> nat,
                       unhash: nat -> Body,
                       sign: (Seed, Params, Body) -> Sig,
                       game: Params -> Game,
                       rules: Rules,
                       legal: Position -> set<Uci>)
  {
    ghost predicate Sound() {
      && (forall b :: unhash(bodyHash(b)) == b)
      && (forall p :: game(p).Sound() && game(p).params == p)
    }
  }

  // ---- Policy ----

  /** Brings a stored record up to the current format, or refuses it. */
  function MigrateRecord(rec: GameRecord): Option<GameRecord> {
    if rec.format == GAME_RECORD_FORMAT then Some(rec)
    else if rec.format == 2 then Some(rec.(format := GAME_RECORD_FORMAT, previous := None))
    else None
  }

  function DecideBind(h: Host, existing: Option<GameRecord>, name: Label, publicKey: Key, params: Params,
                      contract: ContractId, entropy: Entropy, origin: Option<Origin>): Result<GameRecord, Refusal>
  {
    match existing
    case Some(rec) =>
      if rec.format != GAME_RECORD_FORMAT then Err(StaleRecordFormat(rec.format, GAME_RECORD_FORMAT))
      else if rec.origin != origin then Err(WrongOrigin)
      else if h.gameId(rec.params) != h.gameId(params) then Err(AlreadyBound(h.gameId(rec.params)))
      else Ok(rec)
    case None =>
      match params.ColorOf(publicKey)
      case None => Err(KeyNotInParams)
      case Some(color) =>
        Ok(GameRecord(GAME_RECORD_FORMAT, name, params, color, origin, contract, None, entropy, 0, 0))
  }

  function DecideRebind(existing: Option<GameRecord>, name: Label, contract: ContractId, origin: Option<Origin>)
    : Result<GameRecord, Refusal>
  {
    if existing.None? then Err(NotBound) else
      var rec := existing.value;
      if rec.format != GAME_RECORD_FORMAT then Err(StaleRecordFormat(rec.format, GAME_RECORD_FORMAT))
      else if rec.origin != origin then Err(WrongOrigin)
      else if rec.name != name then Err(UnknownLabel)
      else Ok(rec.(contract := contract,
                   previous := if rec.contract == contract then rec.previous else Some(rec.contract)))
  }

  function DecideSign(h: Host, rec: GameRecord, body: Body, origin: Option<Origin>): Result<GameRecord, Refusal> {
    if rec.format != GAME_RECORD_FORMAT then Err(StaleRecordFormat(rec.format, GAME_RECORD_FORMAT))
    else if rec.origin != origin then Err(WrongOrigin)
    else if !body.Move? then Ok(rec)
    else if body.ply > MAX_PLY then Err(PlyOutOfRange(body.ply, MAX_PLY))
    else if ColorAtPly(body.ply) != rec.side then Err(WrongSide(rec.side, ColorAtPly(body.ply)))
    else if body.ply < rec.lastSignedPly then Err(PlyAlreadySigned(body.ply))
    else if body.ply == rec.lastSignedPly then
      if rec.lastSignedPly != 0 && h.bodyHash(body) == rec.lastMoveBodyHash then Ok(rec)
      else Err(PlyAlreadySigned(body.ply))
    else Ok(rec.(lastSignedPly := body.ply, lastMoveBodyHash := h.bodyHash(body)))
  }

  // ---- The secret store ----

  /** What one `set` call does. The store may also land a write that it reports as failed. */
  datatype Fate = Written | Lost | WrittenUnreported

  datatype Fates = Fates(first: Fate, second: Fate, third: Fate)

  datatype Vault = Vault(keys: map<Label, Seed>, qualities: map<Label, Entropy>, owners: map<Label, Origin>,
                         games: map<GameId, GameRecord>, binds: map<Label, GameId>)
  {
    function Owner(name: Label): Option<Origin> {
      if name in owners then Some(owners[name]) else None
    }

    /** The one point where records are migrated. */
    function LoadGame(id: GameId): Option<GameRecord> {
      if id in games then MigrateRecord(games[id]) else None
    }

    function LoadBound(name: Label): Option<GameRecord> {
      if name in binds then LoadGame(binds[name]) else None
    }
  }

  function KeySet(v: Vault, name: Label, seed: Seed, fate: Fate): Vault {
    if fate.Lost? then v else v.(keys := v.keys[name := seed])
  }

  function QualitySet(v: Vault, name: Label, quality: Entropy, fate: Fate): Vault {
    if fate.Lost? then v else v.(qualities := v.qualities[name := quality])
  }

  function OwnerSet(v: Vault, name: Label, origin: Origin, fate: Fate): Vault {
    if fate.Lost? then v else v.(owners := v.owners[name := origin])
  }

  /** Both writes of a game record: the record, then the label's index if the first was reported. */
  function StoredGame(h: Host, v: Vault, rec: GameRecord, fates: Fates): (Vault, bool) {
    var id := h.gameId(rec.params);
    var v1 := if fates.first.Lost? then v else v.(games := v.games[id := rec]);
    if !fates.first.Written? then (v1, false) else
      (if fates.second.Lost? then v1 else v1.(binds := v1.binds[rec.name := id]), fates.second.Written?)
  }

  datatype Request =
    | CreateGameKey(name: Label, derived: Result<(Seed, Entropy), Refusal>)
    | BindGame(name: Label, params: Params, contract: ContractId)
    | Rebind(name: Label, contract: ContractId)
    | Sign(gameId: GameId, body: Body)
    | ListGames

  /** What a listing says of one label; the game's fields are absent until it is bound. */
  datatype GameSummary = GameSummary(
    name: Label, publicKey: Key, gameId: Option<GameId>, side: Option<Color>, lastSignedPly: nat,
    entropy: Option<Entropy>, params: Option<Params>, contract: Option<ContractId>, previous: Option<ContractId>)

  datatype Response =
    | GameKey(name: Label, publicKey: Key, entropy: Entropy)
    | Bound(gameId: GameId)
    | Signed(record: Record)
    | Games(games: set<GameSummary>)
    | Refused(refusal: Refusal)

  /** One call: who asks, what for, how the store behaves, and the contract states the node happens
      to hold in decodable form. */
  datatype Call = Call(origin: Option<Origin>, request: Request, fates: Fates, replicas: map<ContractId, Records>)

  /** A best-effort opinion; absence of a replica, or one at another ply, is no opinion. */
  ghost predicate LocallyIllegal(h: Host, rec: GameRecord, replicas: map<ContractId, Records>, body: Body) {
    body.Move? && rec.contract in replicas &&
    (var g, s := h.game(rec.params), replicas[rec.contract].Keys;
     var chain := ChainOf(g, h.rules, s);
     || Verdict(g, h.rules, s).Some?
     || (|chain| + 1 == body.ply && body.uci !in h.legal(Replay(g, h.rules, chain))))
  }

  // ---- What each handler does to the store ----

  ghost function Created(h: Host, v: Vault, origin: Option<Origin>, name: Label,
                         derived: Result<(Seed, Entropy), Refusal>, fates: Fates): (Vault, Response)
  {
    if name in v.keys then (v, Refused(LabelExists)) else
    if derived.Err? then (v, Refused(derived.error)) else
      var (seed, quality) := derived.value;
      var v1 := KeySet(v, name, seed, fates.first);
      if !fates.first.Written? then (v1, Refused(StoreFailed))
      else Described(h, v1, origin, name, seed, quality, fates)
  }

  /** The key is in place; its quality and its owner follow. */
  ghost function Described(h: Host, v: Vault, origin: Option<Origin>, name: Label, seed: Seed, quality: Entropy,
                           fates: Fates): (Vault, Response)
  {
    var v2 := QualitySet(v, name, quality, fates.second);
    if !fates.second.Written? then (v2, Refused(StoreFailed)) else
      var v3 := if origin.None? then v2 else OwnerSet(v2, name, origin.value, fates.third);
      if origin.Some? && !fates.third.Written? then (v3, Refused(StoreFailed))
      else (v3, GameKey(name, h.publicKey(seed), quality))
  }

  ghost function BoundGame(h: Host, v: Vault, origin: Option<Origin>, name: Label, params: Params,
                           contract: ContractId, fates: Fates): (Vault, Response)
  {
    if name !in v.keys then (v, Refused(UnknownLabel)) else
    if v.Owner(name) != origin then (v, Refused(WrongOrigin)) else
      var existing, other := v.LoadBound(name), v.LoadGame(h.gameId(params));
      if existing.None? && other.Some? && other.value.name != name then
        (v, Refused(AlreadyBound(h.gameId(params))))
      else
        var quality := if name in v.qualities then v.qualities[name] else Degraded;
        Stored(h, v, DecideBind(h, existing, name, h.publicKey(v.keys[name]), params, contract, quality, origin), fates)
  }

  /** Stores a decided record and reports the game it belongs to. */
  ghost function Stored(h: Host, v: Vault, decided: Result<GameRecord, Refusal>, fates: Fates): (Vault, Response) {
    match decided
    case Err(refusal) => (v, Refused(refusal))
    case Ok(rec) =>
      var (v', ok) := StoredGame(h, v, rec, fates);
      (v', if ok then Bound(h.gameId(rec.params)) else Refused(StoreFailed))
  }

  ghost function SignedBody(h: Host, v: Vault, call: Call, id: GameId, body: Body): (Vault, Response) {
    if v.LoadGame(id).None? then (v, Refused(UnknownGame)) else
      var rec := v.LoadGame(id).value;
      if rec.name !in v.keys then (v, Refused(UnknownLabel)) else
      if LocallyIllegal(h, rec, call.replicas, body) then (v, Refused(IllegalMove)) else
        match DecideSign(h, rec, body, call.origin)
        case Err(refusal) => (v, Refused(refusal))
        case Ok(updated) =>
          var (v', ok) := StoredGame(h, v, updated, call.fates);
          if !ok then (v', Refused(StoreFailed)) else
            var seed := v.keys[rec.name];
            (v', Signed(Record(h.publicKey(seed), body, h.sign(seed, rec.params, body))))
  }

  function SummaryOf(h: Host, v: Vault, name: Label): GameSummary
    requires name in v.keys
  {
    var key := h.publicKey(v.keys[name]);
    match v.LoadBound(name)
    case Some(rec) =>
      GameSummary(name, key, Some(h.gameId(rec.params)), Some(rec.side), rec.lastSignedPly, Some(rec.entropy),
                  Some(rec.params), Some(rec.contract), rec.previous)
    case None =>
      GameSummary(name, key, None, None, 0, if name in v.qualities then Some(v.qualities[name]) else None,
                  None, None, None)
  }

  ghost function ListedAmong(h: Host, v: Vault, origin: Option<Origin>, names: set<Label>): set<GameSummary> {
    set name | name in names && name in v.keys && v.Owner(name) == origin :: SummaryOf(h, v, name)
  }

  /** Only labels the caller created are visible to it. */
  ghost function Listed(h: Host, v: Vault, origin: Option<Origin>): set<GameSummary> {
    ListedAmong(h, v, origin, v.keys.Keys)
  }

  lemma ListOneMore(h: Host, v: Vault, origin: Option<Origin>, names: set<Label>, name: Label)
    requires name in v.keys
    ensures ListedAmong(h, v, origin, names + {name}) ==
            if v.Owner(name) == origin then ListedAmong(h, v, origin, names) + {SummaryOf(h, v, name)}
            else ListedAmong(h, v, origin, names)
  {
  }

  ghost function Handled(h: Host, v: Vault, call: Call): (Vault, Response) {
    match call.request
    case CreateGameKey(name, derived) => Created(h, v, call.origin, name, derived, call.fates)
    case BindGame(name, params, contract) => BoundGame(h, v, call.origin, name, params, contract, call.fates)
    case Rebind(name, contract) =>
      Stored(h, v, DecideRebind(v.LoadBound(name), name, contract, call.origin), call.fates)
    case Sign(id, body) => SignedBody(h, v, call, id, body)
    case ListGames => (v, Games(Listed(h, v, call.origin)))
  }

  // ---- The handlers ----

  class Keeper {
    var vault: Vault

    constructor (v: Vault)
      ensures vault == v
    {
      vault := v;
    }

    method SetKey(name: Label, seed: Seed, fate: Fate) returns (ok: bool)
      modifies this
      ensures vault == KeySet(old(vault), name, seed, fate)
      ensures ok == fate.Written?
    {
      if !fate.Lost? {
        vault := vault.(keys := vault.keys[name := seed]);
      }
      ok := fate.Written?;
    }

    method SetQuality(name: Label, quality: Entropy, fate: Fate) returns (ok: bool)
      modifies this
      ensures vault == QualitySet(old(vault), name, quality, fate)
      ensures ok == fate.Written?
    {
      if !fate.Lost? {
        vault := vault.(qualities := vault.qualities[name := quality]);
      }
      ok := fate.Written?;
    }

    method SetOwner(name: Label, origin: Origin, fate: Fate) returns (ok: bool)
      modifies this
      ensures vault == OwnerSet(old(vault), name, origin, fate)
      ensures ok == fate.Written?
    {
      if !fate.Lost? {
        vault := vault.(owners := vault.owners[name := origin]);
      }
      ok := fate.Written?;
    }

    method StoreGame(h: Host, rec: GameRecord, fates: Fates) returns (ok: bool)
      modifies this
      ensures (vault, ok) == StoredGame(h, old(vault), rec, fates)
    {
      var id := h.gameId(rec.params);
      if !fates.first.Lost? {
        vault := vault.(games := vault.games[id := rec]);
      }
      if !fates.first.Written? {
        return false;
      }
      if !fates.second.Lost? {
        vault := vault.(binds := vault.binds[rec.name := id]);
      }
      return fates.second.Written?;
    }

    method HandleCreateGameKey(h: Host, origin: Option<Origin>, name: Label,
                               derived: Result<(Seed, Entropy), Refusal>, fates: Fates) returns (r: Response)
      modifies this
      ensures (vault, r) == Created(h, old(vault), origin, name, derived, fates)
    {
      if name in vault.keys {
        return Refused(LabelExists);
      }
      if derived.Err? {
        return Refused(derived.error);
      }
      var (seed, quality) := derived.value;
      var ok := SetKey(name, seed, fates.first);
      if ok {
        ok := SetQuality(name, quality, fates.second);
      }
      if ok && origin.Some? {
        ok := SetOwner(name, origin.value, fates.third);
      }
      if !ok {
        return Refused(StoreFailed);
      }
      return GameKey(name, h.publicKey(seed), quality);
    }

    method HandleBindGame(h: Host, origin: Option<Origin>, name: Label, params: Params, contract: ContractId,
                          fates: Fates) returns (r: Response)
      modifies this
      ensures (vault, r) == BoundGame(h, old(vault), origin, name, params, contract, fates)
    {
      if name !in vault.keys {
        return Refused(UnknownLabel);
      }
      if vault.Owner(name) != origin {
        return Refused(WrongOrigin);
      }
      var existing := vault.LoadBound(name);
      if existing.None? {
        var other := vault.LoadGame(h.gameId(params));
        if other.Some? && other.value.name != name {
          return Refused(AlreadyBound(h.gameId(params)));
        }
      }
      var quality := if name in vault.qualities then vault.qualities[name] else Degraded;
      var decided := DecideBind(h, existing, name, h.publicKey(vault.keys[name]), params, contract, quality, origin);
      r := StoreDecided(h, decided, fates);
    }

    method StoreDecided(h: Host, decided: Result<GameRecord, Refusal>, fates: Fates) returns (r: Response)
      modifies this
      ensures (vault, r) == Stored(h, old(vault), decided, fates)
    {
      match decided
      case Err(refusal) => return Refused(refusal);
      case Ok(rec) =>
        var ok := StoreGame(h, rec, fates);
        return if ok then Bound(h.gameId(rec.params)) else Refused(StoreFailed);
    }

    method HandleRebind(h: Host, origin: Option<Origin>, name: Label, contract: ContractId, fates: Fates)
      returns (r: Response)
      modifies this
      ensures (vault, r) ==
              Stored(h, old(vault), DecideRebind(old(vault).LoadBound(name), name, contract, origin), fates)
    {
      r := StoreDecided(h, DecideRebind(vault.LoadBound(name), name, contract, origin), fates);
    }

    method LocallyKnownToBeIllegal(h: Host, rec: GameRecord, replicas: map<ContractId, Records>, body: Body)
      returns (illegal: bool)
      requires h.Sound()
      requires rec.contract in replicas ==> Keyed(h.game(rec.params), replicas[rec.contract])
      ensures illegal <==> LocallyIllegal(h, rec, replicas, body)
    {
      if !body.Move? || rec.contract !in replicas {
        return false;
      }
      var status := ProjectState(h.game(rec.params), h.rules, replicas[rec.contract]);
      if status.decision.Some? {
        return true;
      }
      if status.ply + 1 != body.ply {
        return false;
      }
      return body.uci !in h.legal(status.pos);
    }

    /** Persists the ply BEFORE the signature leaves. */
    method HandleSign(h: Host, call: Call, id: GameId, body: Body) returns (r: Response)
      requires h.Sound()
      requires forall c, p | c in call.replicas :: Keyed(h.game(p), call.replicas[c])
      modifies this
      ensures (vault, r) == SignedBody(h, old(vault), call, id, body)
    {
      var loaded := vault.LoadGame(id);
      if loaded.None? {
        return Refused(UnknownGame);
      }
      var rec := loaded.value;
      if rec.name !in vault.keys {
        return Refused(UnknownLabel);
      }
      var seed := vault.keys[rec.name];
      var illegal := LocallyKnownToBeIllegal(h, rec, call.replicas, body);
      if illegal {
        return Refused(IllegalMove);
      }
      match DecideSign(h, rec, body, call.origin)
      case Err(refusal) => return Refused(refusal);
      case Ok(updated) =>
        var ok := StoreGame(h, updated, call.fates);
        if !ok {
          return Refused(StoreFailed);
        }
        return Signed(Record(h.publicKey(seed), body, h.sign(seed, rec.params, body)));
    }

    method HandleListGames(h: Host, origin: Option<Origin>) returns (r: Response)
      ensures r == Games(Listed(h, vault, origin))
    {
      var games: set<GameSummary> := {};
      var pending := vault.keys.Keys;
      while pending != {}
        invariant pending <= vault.keys.Keys
        invariant games == ListedAmong(h, vault, origin, vault.keys.Keys - pending)
        decreases |pending|
      {
        var name :| name in pending;
        ListOneMore(h, vault, origin, vault.keys.Keys - pending, name);
        TakenFrom(vault.keys.Keys, pending, name);
        pending := pending - {name};
        if vault.Owner(name) == origin {
          games := games + {SummaryOf(h, vault, name)};
        }
      }
      assert vault.keys.Keys - {} == vault.keys.Keys;
      return Games(games);
    }

    method Handle(h: Host, call: Call) returns (r: Response)
      requires h.Sound()
      requires forall c, p | c in call.replicas :: Keyed(h.game(p), call.replicas[c])
      modifies this
      ensures (vault, r) == Handled(h, old(vault), call)
    {
      match call.request
      case CreateGameKey(name, derived) =>
        r := HandleCreateGameKey(h, call.origin, name, derived, call.fates);
      case BindGame(name, params, contract) =>
        r := HandleBindGame(h, call.origin, name, params, contract, call.fates);
      case Rebind(name, contract) => r := HandleRebind(h, call.origin, name, contract, call.fates);
      case Sign(id, body) => r := HandleSign(h, call, id, body);
      case ListGames => r := HandleListGames(h, call.origin);
    }
  }
}
