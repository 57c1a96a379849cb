/** A concrete game: hashes that do not collide exist, and the claims the code does NOT support
    fail on these inputs. */
module Witness {
  import opened Types
  import opened Finite
  import opened TopK
  import opened State
  import opened Algebra
  import opened Sync
  import opened Chess
  import opened Project
  import opened Finality
  import opened Delegate
  import opened OneSignature
  import Migration
  import Network
  import Watch

  // ---- A collision-free numbering of statements ----

  function Pair(a: nat, b: nat): (n: nat)
    ensures n > 0
  {
    if a == 0 then 2 * b + 1 else 2 * Pair(a - 1, b)
  }

  function Unpair(n: nat): (nat, nat) {
    if n == 0 then (0, 0)
    else if n % 2 == 1 then (0, n / 2)
    else (Unpair(n / 2).0 + 1, Unpair(n / 2).1)
  }

  lemma {:induction false} UnpairPair(a: nat, b: nat)
    ensures Unpair(Pair(a, b)) == (a, b)
  {
    if a > 0 {
      UnpairPair(a - 1, b);
    }
  }

  lemma {:induction false} PairGrows(a: nat, b: nat, c: nat)
    requires b < c
    ensures Pair(a, b) < Pair(a, c)
  {
    if a > 0 {
      PairGrows(a - 1, b, c);
    }
  }

  lemma {:induction false} PairAbove(a: nat, b: nat)
    ensures Pair(a, b) > a && Pair(a, b) > 2 * b
  {
    if a > 0 {
      PairAbove(a - 1, b);
    }
  }

  function BodyCode(b: Body): nat {
    match b
    case Resign => Pair(0, 0)
    case Move(p, t, u) => Pair(1, Pair(p, Pair(t, u)))
    case DrawOffer(p, t) => Pair(2, Pair(p, t))
    case DrawAccept(p, o) => Pair(3, Pair(p, o))
    case DrawClaim(p, t) => Pair(4, Pair(p, t))
  }

  function AsPly(n: nat): Ply {
    if n <= 0xFFFF then n else 0
  }

  function BodyOf(n: nat): Body {
    var (kind, rest) := Unpair(n);
    var (p, t) := Unpair(rest);
    if kind == 0 then Resign
    else if kind == 1 then Move(AsPly(p), Unpair(t).0, Unpair(t).1)
    else if kind == 2 then DrawOffer(AsPly(p), t)
    else if kind == 3 then DrawAccept(AsPly(p), t)
    else DrawClaim(AsPly(p), t)
  }

  lemma BodyOfCode(b: Body)
    ensures BodyOf(BodyCode(b)) == b
  {
    match b
    case Resign => UnpairPair(0, 0);
    case Move(p, t, u) =>
      UnpairPair(1, Pair(p, Pair(t, u)));
      UnpairPair(p, Pair(t, u));
      UnpairPair(t, u);
    case DrawOffer(p, t) =>
      UnpairPair(2, Pair(p, t));
      UnpairPair(p, t);
    case DrawAccept(p, o) =>
      UnpairPair(3, Pair(p, o));
      UnpairPair(p, o);
    case DrawClaim(p, t) =>
      UnpairPair(4, Pair(p, t));
      UnpairPair(p, t);
  }

  function Code(s: Statement): RecordId {
    Pair(s.signer, BodyCode(s.body))
  }

  function Decode(id: RecordId): Statement {
    Statement(Unpair(id).0, BodyOf(Unpair(id).1))
  }

  const WHITE: Key := 0
  const BLACK: Key := 1
  const GENUINE: Sig := 1
  const FORGED: Sig := 0

  /** No statement is numbered 7. */
  const GENESIS: RecordId := 7

  /** White's key is 0, Black's is 1, and one signature is genuine. */
  const GAME: Game := Game(Params(WHITE, BLACK, 0), GENESIS, Code, Decode, (s: Sig) => s, (d: Digest) => d,
                           (s: Statement, sig: Sig) => sig == GENUINE)

  /** Every move spelled 0 is legal, always, and nothing ever ends the game. */
  const RULES: Rules := Rules(0, (p: Position, u: Uci) => if u == 0 then Some(p + 1) else None,
                              (p: Position) => p, (p: Position) => 0, (p: Position) => ColorAtPly(p + 1),
                              (p: Position) => false, (p: Position) => false, (p: Position) => false)

  /** Every game is GAME between other keys; every signature is genuine; one spelling is legal. */
  const HOST: Host := Host((p: Params) => p.nonce, (seed: Seed) => seed, BodyCode, BodyOf,
                           (seed: Seed, p: Params, b: Body) => GENUINE, (p: Params) => GAME.(params := p),
                           RULES, (p: Position) => {0})

  /** What the laws assume of a game and of a host can be met. */
  lemma AssumptionsHold()
    ensures GAME.Sound() && RULES.Fair() && HOST.Sound()
  {
    forall s: Statement ensures GAME.says(GAME.recordId(s)) == s {
      UnpairPair(s.signer, BodyCode(s.body));
      BodyOfCode(s.body);
    }
    forall b: Body ensures HOST.unhash(HOST.bodyHash(b)) == b {
      BodyOfCode(b);
    }
  }

  lemma Says(s: Statement)
    ensures GAME.says(Code(s)) == s
  {
    AssumptionsHold();
    assert GAME.recordId(s) == Code(s);
  }

  /** A move's number exceeds the number of the parent it names. */
  lemma CodeAbove(s: Statement)
    requires s.body.Move?
    ensures Code(s) > s.body.parent
  {
    PairAbove(s.body.parent, s.body.uci);
    PairAbove(s.body.ply, Pair(s.body.parent, s.body.uci));
    PairAbove(1, Pair(s.body.ply, Pair(s.body.parent, s.body.uci)));
    PairAbove(s.signer, BodyCode(s.body));
  }

  // ---- Two offers by one player at one ply ----

  /** The second of two offers that differ only in what they name has the larger id. */
  lemma OffersAscend(signer: Key, at: RecordId, later: RecordId)
    requires at < later
    ensures Code(Statement(signer, DrawOffer(0, at))) < Code(Statement(signer, DrawOffer(0, later)))
  {
    PairGrows(0, at, later);
    PairGrows(2, Pair(0, at), Pair(0, later));
    PairGrows(signer, BodyCode(DrawOffer(0, at)), BodyCode(DrawOffer(0, later)));
  }

  /** Two offers in one slot, the first with the lower id. */
  ghost predicate Contend(g: Game, low: Record, high: Record) {
    && g.Sound() && g.Id(low) < g.Id(high)
    && low.body.DrawOffer? && high.body.DrawOffer?
    && low.signer == high.signer && low.body.ply == high.body.ply
  }

  ghost function Alone(g: Game, rec: Record): Records {
    map[g.Id(rec) := rec]
  }

  /** Of two draw statements in one slot only the lower survives. */
  lemma LowerSurvives(g: Game, s: set<RecordId>, x: RecordId, y: RecordId)
    requires x < y && x in s && y in s && g.GroupOf(x) == g.GroupOf(y)
    requires g.GroupOf(x).Some? && g.GroupOf(x).value.kind.K() == 1
    requires forall id | id in s && g.GroupOf(id) == g.GroupOf(x) :: id == x || id == y
    ensures x in Top(g, s) && y !in Top(g, s)
  {
    assert Rivals(g, s, x) == {};
    assert Rivals(g, s, y) == {x};
  }

  lemma ContendersFight(g: Game, low: Record, high: Record)
    requires Contend(g, low, high)
    ensures Top(g, {g.Id(low), g.Id(high)}) == {g.Id(low)}
    ensures g.GroupOf(g.Id(low)) == g.GroupOf(g.Id(high))
  {
    assert g.says(g.recordId(low.Says())) == low.Says();
    assert g.says(g.recordId(high.Says())) == high.Says();
    LowerSurvives(g, {g.Id(low), g.Id(high)}, g.Id(low), g.Id(high));
  }

  /** A forged low-id offer already in the base evicts an honest one that filtering first would
      have kept: validating and merging do not commute. */
  lemma ForgeryBreaksCommuting(g: Game, low: Record, high: Record)
    requires Contend(g, low, high) && !g.Verify(low) && g.Verify(high)
    ensures var a, b := Alone(g, low), Alone(g, high);
            && Keyed(g, a) && Keyed(g, b) && AllValid(g, b)
            && Filtered(g, Merged(g, a, b)) != Merged(g, Filtered(g, a), Filtered(g, b))
  {
    var joined := AbsorbedState(g, Alone(g, low), Alone(g, high));
    ContendersFight(g, low, high);
    assert joined.Keys == {g.Id(low), g.Id(high)} && ValidIds(g, joined) == {g.Id(high)};
    assert g.Id(low) in Top(g, joined.Keys) - ValidIds(g, joined);
    assert g.Id(high) in ValidIds(g, joined) - Top(g, joined.Keys);
    FilterCommutesIff(g, Alone(g, low), Alone(g, high));
  }

  /** After one direction only, the sender keeps offering what the receiver evicted. */
  lemma OneWayReoffers(g: Game, low: Record, high: Record, toA: seq<Record>, again: seq<Record>)
    requires Contend(g, low, high) && g.Verify(low) && g.Verify(high)
    requires IsDelta(g, Alone(g, high), Summarized(g, Alone(g, low)), toA)
    requires IsDelta(g, Alone(g, high), Summarized(g, Applied(g, Alone(g, low), toA)), again)
    ensures again != []
  {
    var a, b := Alone(g, low), Alone(g, high);
    ContendersFight(g, low, high);
    AloneIsNormal(g, low);
    AloneIsNormal(g, high);
    assert a.Keys + b.Keys == {g.Id(low), g.Id(high)};
    assert g.Id(high) !in Top(g, a.Keys + b.Keys);
    assert Beaten(g, a, b, g.Id(high));
    OneWaySettlesIff(g, a, b, toA, again);
  }

  lemma AloneIsNormal(g: Game, rec: Record)
    requires g.Verify(rec)
    ensures Normal(g, Alone(g, rec))
  {
    var m := Alone(g, rec);
    if rec.Says().GroupOf().Some? {
      assert Under(GroupIds(m, rec.Says().GroupOf().value), g.Id(rec)) == {};
    }
  }

  /** White's genuine offer at the start of the game. */
  const OFFER: Record := Record(WHITE, DrawOffer(0, GENESIS), GENUINE)

  /** The same slot, a lower id. */
  function Rival(sig: Sig): Record {
    Record(WHITE, DrawOffer(0, 3), sig)
  }

  lemma RivalContends(sig: Sig)
    ensures Contend(GAME, Rival(sig), OFFER)
    ensures GAME.Verify(OFFER) && (GAME.Verify(Rival(sig)) <==> sig == GENUINE)
  {
    AssumptionsHold();
    OffersAscend(WHITE, 3, GENESIS);
  }

  /** Filtering after and before merging a forged rival's base with an honest state differ. */
  lemma ForgeryExample()
    ensures var a, b := Alone(GAME, Rival(FORGED)), Alone(GAME, OFFER);
            Filtered(GAME, Merged(GAME, a, b)) != Merged(GAME, Filtered(GAME, a), Filtered(GAME, b))
  {
    RivalContends(FORGED);
    ForgeryBreaksCommuting(GAME, Rival(FORGED), OFFER);
  }

  /** A peer holding the offer meets one holding a genuine rival: the delta is the offer, which is
      evicted, and the next delta is the offer again. */
  lemma OneWayExample()
    ensures var a, b := Alone(GAME, Rival(GENUINE)), Alone(GAME, OFFER);
            && IsDelta(GAME, b, Summarized(GAME, a), [OFFER])
            && IsDelta(GAME, b, Summarized(GAME, Applied(GAME, a, [OFFER])), [OFFER])
  {
    RivalContends(GENUINE);
    RefusedDelta(GAME, Rival(GENUINE), OFFER);
  }

  /** A peer holding the lower record is offered the higher, refuses it, and is offered it again. */
  lemma RefusedDelta(g: Game, low: Record, high: Record)
    requires Contend(g, low, high) && g.Verify(low) && g.Verify(high)
    ensures IsDelta(g, Alone(g, high), Summarized(g, Alone(g, low)), [high])
    ensures IsDelta(g, Alone(g, high), Summarized(g, Applied(g, Alone(g, low), [high])), [high])
  {
    DeltaOfOne(g, high, Summarized(g, Alone(g, low)));
    StillLacking(g, low, high);
    DeltaOfOne(g, high, Summarized(g, Applied(g, Alone(g, low), [high])));
  }

  lemma StillLacking(g: Game, low: Record, high: Record)
    requires Contend(g, low, high) && g.Verify(low) && g.Verify(high)
    ensures g.Id(high) !in Applied(g, Alone(g, low), [high])
  {
    var a, b := Alone(g, low), Alone(g, high);
    ContendersFight(g, low, high);
    DeltaOfOne(g, high, Summarized(g, a));
    DeltaRefinesMerge(g, a, b, [high]);
    BothContend(g, low, high);
    EvictedIsTop(g, AbsorbedState(g, a, b));
  }

  lemma BothContend(g: Game, low: Record, high: Record)
    requires Contend(g, low, high) && g.Verify(high)
    ensures AbsorbedState(g, Alone(g, low), Alone(g, high)).Keys == {g.Id(low), g.Id(high)}
    ensures Keyed(g, AbsorbedState(g, Alone(g, low), Alone(g, high)))
  {
  }

  lemma DeltaOfOne(g: Game, rec: Record, summary: Summary)
    requires g.Id(rec) !in summary
    ensures IsDelta(g, Alone(g, rec), summary, [rec])
  {
  }

  // ---- An accepted draw that its offerer takes back ----

  /** The board never decides anything in the first two positions. */
  ghost predicate Quiet(r: Rules) {
    forall p :: !r.checkmate(p) && !r.stalemate(p) && !r.insufficient(p) && r.halfmoves(p) < 100
  }

  /** At the start of the game one player offered a draw and the other accepted. */
  ghost predicate Agreed(g: Game, s: set<RecordId>, offer: RecordId, accept: RecordId) {
    && s == {offer, accept} && Agree(g, accept, offer, g.genesis)
    && g.says(accept).signer != g.says(offer).signer
  }

  lemma NoMoves(g: Game, r: Rules, s: set<RecordId>)
    requires forall id | id in s :: !g.says(id).body.Move?
    ensures FraudPlies(g, s) == {} && ChainOf(g, r, s) == []
  {
    forall k, p ensures MovesAt(g, s, k, p) == {} {
    }
    ChainEnds(g, r, s);
    LegalPrefix(g, r, s, StopPly(g, s), ChainOf(g, r, s), 0);
  }

  /** No position recurs three times in at most one move. */
  lemma ShortChainIsQuiet(g: Game, r: Rules, chain: Chain)
    requires Quiet(r) && |chain| <= 1
    ensures Occurrences(g, r, chain) < THREEFOLD && !Halts(g, r, chain)
  {
    var seen := Recurrences(g, r, chain, r.key(Replay(g, r, chain)));
    assert seen <= {0, 1};
    SubsetSize(seen, {0, 1});
  }

  /** In such a short game only an agreement can decide. */
  lemma OnlyAgreementDecides(g: Game, r: Rules, t: set<RecordId>)
    requires Quiet(r) && FraudPlies(g, t) == {} && |ChainOf(g, r, t)| <= 1
    requires forall id | id in t :: !g.says(id).body.Resign?
    ensures Verdict(g, r, t) ==
            if DrawAgreed(g, t, Head(g, ChainOf(g, r, t))) then Some(Decision(None, DrawAgreement)) else None
  {
    ShortChainIsQuiet(g, r, ChainOf(g, r, t));
    assert !Resigned(g, t, White) && !Resigned(g, t, Black);
  }

  lemma AgreedIsDrawn(g: Game, r: Rules, s: set<RecordId>, offer: RecordId, accept: RecordId)
    requires Quiet(r) && Agreed(g, s, offer, accept)
    ensures Verdict(g, r, s) == Some(Decision(None, DrawAgreement)) && FraudPlies(g, s) == {}
    ensures ChainOf(g, r, s) == []
  {
    NoMoves(g, r, s);
    OnlyAgreementDecides(g, r, s);
  }

  /** If the player who offered is also the player to move, moving on voids the accepted draw. */
  lemma OffererMovesOn(g: Game, r: Rules, s: set<RecordId>, offer: RecordId, accept: RecordId, move: RecordId)
    requires Quiet(r) && Agreed(g, s, offer, accept) && g.says(move).signer == g.says(offer).signer
    requires Continues(g, r, [], move) && move != g.genesis
    ensures Verdict(g, r, s) == Some(Decision(None, DrawAgreement)) && FraudPlies(g, s + {move}) == {}
    ensures Verdict(g, r, Top(g, s + {move})) == None
  {
    AgreedIsDrawn(g, r, s, offer, accept);
    MovedOn(g, r, s, offer, accept, move);
    NotAgreedAt(g, Top(g, s + {move}), offer, accept, move);
    OnlyAgreementDecides(g, r, Top(g, s + {move}));
  }

  lemma MovedOn(g: Game, r: Rules, s: set<RecordId>, offer: RecordId, accept: RecordId, move: RecordId)
    requires Quiet(r) && Agreed(g, s, offer, accept) && Continues(g, r, [], move)
    ensures FraudPlies(g, s + {move}) == {} && FraudPlies(g, Top(g, s + {move})) == {}
    ensures ChainOf(g, r, Top(g, s + {move})) == [move]
  {
    NoMoves(g, r, s);
    ShortChainIsQuiet(g, r, []);
    assert MovesAt(g, s, g.says(move).signer, 1) == {};
    FirstSignatureAdvances(g, r, s, move);
    EvictionKeepsFraud(g, s + {move});
    FraudGone(g, s, move);
    OneMoveChain(g, r, Top(g, s + {move}), move);
  }

  /** The accepted offer is not an offer at the new head. */
  lemma NotAgreedAt(g: Game, t: set<RecordId>, offer: RecordId, accept: RecordId, move: RecordId)
    requires t <= {offer, accept, move} && Agree(g, accept, offer, g.genesis)
    requires g.says(move).body.Move? && move != g.genesis
    ensures !DrawAgreed(g, t, move)
  {
  }

  lemma FraudGone(g: Game, s: set<RecordId>, move: RecordId)
    requires FraudOf(g, Top(g, s + {move})).None?
    ensures FraudPlies(g, s + {move}) == {}
  {
    EvictionKeepsFraud(g, s + {move});
  }

  /** With one move record in the state, the chain is at most that move. */
  lemma OneMoveChain(g: Game, r: Rules, t: set<RecordId>, move: RecordId)
    requires [move] <= ChainOf(g, r, t) && g.says(move).body.Move? && g.says(move).body.ply == 1
    requires forall id | id in t && g.says(id).body.Move? :: id == move
    ensures ChainOf(g, r, t) == [move]
  {
    var chain := ChainOf(g, r, t);
    ChainEnds(g, r, t);
  }

  /** Even an offerer who is NOT to move can take the draw back: a lower-id offer in the same slot
      evicts the accepted one. */
  lemma OffererDisplacesOffer(g: Game, r: Rules, s: set<RecordId>, offer: RecordId, accept: RecordId, lower: RecordId)
    requires Quiet(r) && Agreed(g, s, offer, accept) && lower < offer
    requires g.says(lower).body.DrawOffer? && g.GroupOf(lower) == g.GroupOf(offer)
    ensures Verdict(g, r, s) == Some(Decision(None, DrawAgreement)) && FraudPlies(g, s + {lower}) == {}
    ensures Verdict(g, r, Top(g, s + {lower})) == None
  {
    var t := Top(g, s + {lower});
    AgreedIsDrawn(g, r, s, offer, accept);
    NoMoves(g, r, s + {lower});
    LowerSurvives(g, s + {lower}, lower, offer);
    NoMoves(g, r, t);
    OnlyAgreementDecides(g, r, t);
  }

  function OfferBy(signer: Key): RecordId {
    Code(Statement(signer, DrawOffer(0, GENESIS)))
  }

  function AcceptBy(signer: Key, offer: RecordId): RecordId {
    Code(Statement(signer, DrawAccept(0, offer)))
  }

  lemma DrawSays(offerer: Key, accepter: Key, offer: RecordId)
    ensures GAME.says(OfferBy(offerer)) == Statement(offerer, DrawOffer(0, GENESIS))
    ensures GAME.says(AcceptBy(accepter, offer)) == Statement(accepter, DrawAccept(0, offer))
  {
    Says(Statement(offerer, DrawOffer(0, GENESIS)));
    Says(Statement(accepter, DrawAccept(0, offer)));
  }

  lemma AgreedExists(offerer: Key)
    requires offerer <= 1
    ensures var offer := OfferBy(offerer);
            Agreed(GAME, {offer, AcceptBy(1 - offerer, offer)}, offer, AcceptBy(1 - offerer, offer))
  {
    DrawSays(offerer, 1 - offerer, OfferBy(offerer));
  }

  /** White offers, Black accepts, White plays on: no longer a draw. */
  lemma MovingOnExample() returns (s: set<RecordId>, move: RecordId)
    ensures Verdict(GAME, RULES, s) == Some(Decision(None, DrawAgreement)) && FraudPlies(GAME, s + {move}) == {}
    ensures OnlyBy(GAME, {move}, WHITE) && Verdict(GAME, RULES, Top(GAME, s + {move})) == None
  {
    move := Code(Statement(WHITE, Move(1, GENESIS, 0)));
    s := {OfferBy(WHITE), AcceptBy(BLACK, OfferBy(WHITE))};
    Says(Statement(WHITE, Move(1, GENESIS, 0)));
    Says(Statement(WHITE, DrawOffer(0, GENESIS)));
    AgreedExists(WHITE);
    CodeAbove(Statement(WHITE, Move(1, GENESIS, 0)));
    OffererMovesOn(GAME, RULES, s, OfferBy(WHITE), AcceptBy(BLACK, OfferBy(WHITE)), move);
  }

  /** Black offers, White (to move) accepts, Black publishes a lower offer: no longer a draw. */
  lemma DisplacingExample() returns (s: set<RecordId>, lower: RecordId)
    ensures Verdict(GAME, RULES, s) == Some(Decision(None, DrawAgreement)) && FraudPlies(GAME, s + {lower}) == {}
    ensures OnlyBy(GAME, {lower}, BLACK) && Verdict(GAME, RULES, Top(GAME, s + {lower})) == None
  {
    lower := Code(Statement(BLACK, DrawOffer(0, 3)));
    s := {OfferBy(BLACK), AcceptBy(WHITE, OfferBy(BLACK))};
    Says(Statement(BLACK, DrawOffer(0, 3)));
    Says(Statement(BLACK, DrawOffer(0, GENESIS)));
    OffersAscend(BLACK, 3, GENESIS);
    AgreedExists(BLACK);
    OffererDisplacesOffer(GAME, RULES, s, OfferBy(BLACK), AcceptBy(WHITE, OfferBy(BLACK)), lower);
  }

  // ---- A key creation that fails and is not undone ----

  /** The key is written, the quality is not: the caller is told of a failure, the key is there, and
      asking again finds the name taken. */
  lemma FailedCreateExample() returns (v: Vault, call: Call)
    ensures call.request.CreateGameKey? && v.keys == map[]
    ensures Handled(HOST, v, call).1 == Refused(StoreFailed)
    ensures call.request.name in Handled(HOST, v, call).0.keys
    ensures Handled(HOST, Handled(HOST, v, call).0, call).1 == Refused(LabelExists)
  {
    v := Vault(map[], map[], map[], map[], map[]);
    call := Call(None, CreateGameKey("game", Ok((0, HostBacked))), Fates(Written, Lost, Written), map[]);
    FailedCreateLeavesNothingIff(HOST, v, call);
  }

  // ---- A counter that a bind resets ----

  const GAME_PARAMS: Params := Params(WHITE, BLACK, 0)

  /** White's fifth half-move, signed before; and another one. */
  function Fifth(uci: Uci): Record {
    Record(WHITE, Move(5, GENESIS, uci), GENUINE)
  }

  /** A record this build cannot read, with a move signed at ply 5: binding the same label to the same
      game is granted and starts again from zero. */
  lemma BindResetsExample() returns (v: Vault, call: Call, after: Vault)
    ensures call.request.BindGame? && Filed(HOST, v) && !Readable(v, call.request.name)
    ensures Handled(HOST, v, call) == (after, Bound(0))
    ensures 0 in v.games && v.games[0].lastSignedPly == 5
    ensures 0 in after.games && after.games[0] == FRESH && after.keys == map["game" := 0]
  {
    var rec := GameRecord(4, "game", GAME_PARAMS, White, None, 1, None, HostBacked, 5, 0);
    v := Vault(map["game" := 0], map[], map[], map[0 := rec], map["game" := 0]);
    call := Call(None, BindGame("game", GAME_PARAMS, 1), Fates(Written, Written, Written), map[]);
    assert HOST.gameId(GAME_PARAMS) == 0 && HOST.publicKey(0) == WHITE;
    BindKeepsCounterIff(HOST, v, call);
    after := Handled(HOST, v, call).0;
  }

  /** What a bind writes for White. */
  const FRESH: GameRecord := GameRecord(GAME_RECORD_FORMAT, "game", GAME_PARAMS, White, None, 1, None, Degraded, 0, 0)

  /** Then a different move at that ply is signed too. The player has signed two, and forfeits. */
  lemma ResetForfeitsExample() returns (v: Vault, bind: Call, after: Vault, again: Call)
    ensures Filed(HOST, v) && 0 in v.games && v.games[0].lastSignedPly == 5
    ensures Handled(HOST, v, bind) == (after, Bound(0))
    ensures Handled(HOST, after, again).1 == Signed(Fifth(1))
    ensures !OneBodyPerPly({(0, Fifth(0)), (0, Fifth(1))})
    ensures GAME.Verify(Fifth(0)) && GAME.Verify(Fifth(1))
    ensures Blamed(GAME, {GAME.Id(Fifth(0)), GAME.Id(Fifth(1))}, White)
  {
    v, bind, after := BindResetsExample();
    again := Call(None, Sign(0, Fifth(1).body), Fates(Written, Written, Written), map[]);
    SignsAgain(after, again);
    TwoFifths();
    TwoBodies();
  }

  lemma TwoBodies()
    ensures !OneBodyPerPly({(0, Fifth(0)), (0, Fifth(1))})
  {
    var x, y := (0, Fifth(0)), (0, Fifth(1));
    assert x in {x, y} && y in {x, y} && x.1.body != y.1.body;
  }

  lemma SignsAgain(v: Vault, again: Call)
    requires 0 in v.games && v.games[0] == FRESH && v.keys == map["game" := 0]
    requires again == Call(None, Sign(0, Fifth(1).body), Fates(Written, Written, Written), map[])
    ensures Handled(HOST, v, again).1 == Signed(Fifth(1))
  {
    assert v.LoadGame(0) == Some(FRESH);
    assert HOST.publicKey(0) == WHITE && HOST.sign(0, GAME_PARAMS, Fifth(1).body) == GENUINE;
  }

  lemma TwoFifths()
    ensures GAME.Verify(Fifth(0)) && GAME.Verify(Fifth(1))
    ensures Blamed(GAME, {GAME.Id(Fifth(0)), GAME.Id(Fifth(1))}, White)
  {
    Says(Fifth(0).Says());
    Says(Fifth(1).Says());
    var a, b := GAME.Id(Fifth(0)), GAME.Id(Fifth(1));
    assert a != b && GAME.says(a).body.Move? && GAME.says(b).body.Move?;
    assert MovesAt(GAME, {a, b}, WHITE, 5) == {a, b};
    var p: Ply := 5;
    assert DoubledAt(GAME, {a, b}, White, p);
  }

  // ---- A rebind that fails and has moved ----

  /** The record's write lands, the index's does not: the client is told of a failure, and the delegate
      points at the new contract. */
  lemma FailedRebindExample() returns (v: Vault, call: Call)
    ensures call.request.Rebind? && Handled(HOST, v, call).1 == Refused(StoreFailed)
    ensures v.LoadBound(call.request.name).Some?
    ensures v.LoadBound(call.request.name).value.contract != call.request.contract
    ensures var after := Handled(HOST, v, call).0.LoadBound(call.request.name);
            after.Some? && after.value.contract == call.request.contract
  {
    var rec := GameRecord(3, "game", Params(WHITE, BLACK, 0), White, None, 1, None, HostBacked, 5, 0);
    var fates := Fates(Written, Lost, Written);
    v := Vault(map["game" := 0], map[], map[], map[0 := rec], map["game" := 0]);
    call := Call(None, Rebind("game", 2), fates, map[]);
    assert HOST.gameId(rec.params) == 0;
    Migration.RebindLands(HOST, v, "game", 2, None, fates, rec);
  }

  // ---- A rebind that lands late ----

  /** An attempt read contract 1 while it was empty and stored that under 3. Since then the game has moved
      to 2 and been played on there. The attempt's rebind still lands, and the delegate points at 3,
      which lacks what 2 holds. */
  lemma LateRebindExample() returns (s: Migration.Sys)
    ensures Migration.Inv(GAME, s) && Migration.Enabled(GAME, s, Migration.Repoint(0, Migration.ALL_WRITTEN))
    ensures !Migration.UpToDate(GAME, s, 0)
    ensures var end := Migration.Step(GAME, s, Migration.Repoint(0, Migration.ALL_WRITTEN));
            && s.rec.contract in s.contracts && end.rec.contract in end.contracts
            && end.rec.contract != s.rec.contract
            && !Contains(GAME, end.contracts[end.rec.contract], s.contracts[s.rec.contract].Values)
  {
    var none: Records := map[];
    var rec := GameRecord(3, "game", GAME_PARAMS, White, None, 2, Some(1), HostBacked, 0, 0);
    var late := Migration.Attempt("game", None, 1, 3, Migration.Stored(none));
    RivalContends(GENUINE);
    s := LateState(OFFER, rec, late);
  }

  lemma LateState(played: Record, rec: GameRecord, late: Migration.Attempt) returns (s: Migration.Sys)
    requires GAME.Verify(played)
    requires rec.format == GAME_RECORD_FORMAT && rec.name == "game" && rec.origin == None
    requires rec.contract == 2 && rec.previous == Some(1)
    requires late == Migration.Attempt("game", None, 1, 3, Migration.Stored(map[]))
    ensures Migration.Inv(GAME, s) && Migration.Enabled(GAME, s, Migration.Repoint(0, Migration.ALL_WRITTEN))
    ensures !Migration.UpToDate(GAME, s, 0) && s.rec == rec
    ensures var end := Migration.Step(GAME, s, Migration.Repoint(0, Migration.ALL_WRITTEN));
            && s.rec.contract in s.contracts && end.rec.contract in end.contracts
            && end.rec.contract != s.rec.contract
            && !Contains(GAME, end.contracts[end.rec.contract], s.contracts[s.rec.contract].Values)
  {
    var none: Records := map[];
    s := Migration.Sys(map[1 := none, 2 := Alone(GAME, played), 3 := none], rec, [late], {});
    EmptyLacks(played);
  }

  lemma EmptyLacks(rec: Record)
    requires GAME.Verify(rec)
    ensures Authentic(GAME, Alone(GAME, rec))
    ensures var none: Records := map[];
            Contains(GAME, none, none.Values) && !Contains(GAME, none, Alone(GAME, rec).Values)
  {
    var none: Records := map[];
    AssumptionsHold();
    AloneIsNormal(GAME, rec);
    assert none.Values + none.Values == none.Values;
    assert GAME.Id(rec) in Alone(GAME, rec);
    if Contains(GAME, none, Alone(GAME, rec).Values) {
      Network.OnlyNothing(GAME, Alone(GAME, rec), none);
      assert false;
    }
  }

  // ---- A warning about a record that eviction dropped ----

  /** The opponent's lower offer evicted the higher one here; there the higher one is left. The watcher
      warns, and nothing is missed. */
  lemma FalseWarningExample()
    ensures var current, previous := Alone(GAME, Rival(GENUINE)), Alone(GAME, OFFER);
            && Normal(GAME, current) && Authentic(GAME, previous)
            && Watch.OpponentMovedOnPrevious(current, previous, BLACK)
            && forall id | id in Watch.Ahead(current, previous, BLACK) :: !Watch.Missed(GAME, current, previous[id])
  {
    var current, previous := Alone(GAME, Rival(GENUINE)), Alone(GAME, OFFER);
    RivalContends(GENUINE);
    ContendersFight(GAME, Rival(GENUINE), OFFER);
    AloneIsNormal(GAME, Rival(GENUINE));
    AloneIsNormal(GAME, OFFER);
    Watch.WarningIsTrueIff(GAME, current, previous, BLACK);
    assert current.Keys + {GAME.Id(OFFER)} == {GAME.Id(Rival(GENUINE)), GAME.Id(OFFER)};
    assert GAME.Id(OFFER) in previous && GAME.Id(OFFER) !in current;
  }

  // ---- A decision the watcher's size test does not see ----

  /** A lower-id acceptance replaces a stale one in the same slot. */
  ghost predicate Supersedes(g: Game, offer: RecordId, stale: RecordId, accept: RecordId) {
    && Agree(g, accept, offer, g.genesis) && accept < stale && g.GroupOf(accept) == g.GroupOf(stale)
    && g.says(stale).body.DrawAccept? && g.says(stale).body.offer != offer
  }

  lemma Superseded(g: Game, offer: RecordId, stale: RecordId, accept: RecordId)
    requires Supersedes(g, offer, stale, accept)
    ensures Top(g, {offer, stale}) == {offer, stale}
    ensures Top(g, {offer, stale} + {accept}) == {offer, accept}
    ensures |{offer, stale}| == |{offer, accept}| == 2
  {
    var s := {offer, stale};
    assert g.GroupOf(offer) != g.GroupOf(stale) && offer != stale && offer != accept;
    assert Rivals(g, s, offer) == {} && Rivals(g, s, stale) == {};
    assert Rivals(g, s + {accept}, offer) == {};
    LowerSurvives(g, s + {accept}, accept, stale);
  }

  /** The record count stays, nothing was drawn, and now it is. */
  lemma SizeHidesDraw(g: Game, r: Rules, offer: RecordId, stale: RecordId, accept: RecordId)
    requires Quiet(r) && Supersedes(g, offer, stale, accept)
    ensures var s := {offer, stale};
            var t := Top(g, s + {accept});
            && Top(g, s) == s && |t| == |s|
            && Verdict(g, r, s) == None && Verdict(g, r, t) == Some(Decision(None, DrawAgreement))
  {
    var s, t := {offer, stale}, {offer, accept};
    Superseded(g, offer, stale, accept);
    NoMoves(g, r, s);
    NoMoves(g, r, t);
    OnlyAgreementDecides(g, r, s);
    OnlyAgreementDecides(g, r, t);
    assert DrawAgreed(g, t, g.genesis);
  }

  /** Black's offer stands; White's acceptance of it has a lower id than the stale one held. */
  lemma SizeHidesDrawExample() returns (stale: RecordId, accept: RecordId)
    ensures var s := {OfferBy(BLACK), stale};
            var t := Top(GAME, s + {accept});
            |t| == |s| && Verdict(GAME, RULES, s) == None && Verdict(GAME, RULES, t).Some?
  {
    var offer := OfferBy(BLACK);
    accept, stale := AcceptBy(WHITE, offer), AcceptBy(WHITE, offer + 1);
    LowerAcceptSupersedes(offer);
    SizeHidesDraw(GAME, RULES, offer, stale, accept);
  }

  lemma LowerAcceptSupersedes(offer: RecordId)
    requires offer == OfferBy(BLACK)
    ensures Supersedes(GAME, offer, AcceptBy(WHITE, offer + 1), AcceptBy(WHITE, offer))
  {
    DrawSays(BLACK, WHITE, offer);
    DrawSays(BLACK, WHITE, offer + 1);
    AcceptsAscend(offer, offer + 1);
  }

  lemma AcceptsAscend(offer: RecordId, later: RecordId)
    requires offer < later
    ensures AcceptBy(WHITE, offer) < AcceptBy(WHITE, later)
  {
    PairGrows(0, offer, later);
    PairGrows(3, Pair(0, offer), Pair(0, later));
    PairGrows(WHITE, BodyCode(DrawAccept(0, offer)), BodyCode(DrawAccept(0, later)));
  }

  // ---- A claim it does not see ----

  /** Every position is old enough to claim a draw in, and none ends the game. */
  ghost predicate Stale(r: Rules) {
    forall p :: !r.checkmate(p) && !r.stalemate(p) && !r.insufficient(p) && 100 <= r.halfmoves(p)
  }

  /** A lower-id claim replaces an expired one in the same slot: as many records, and a drawn game. */
  lemma SizeHidesClaim(g: Game, r: Rules, expired: RecordId, claim: RecordId)
    requires Stale(r) && claim < expired && g.GroupOf(claim) == g.GroupOf(expired)
    requires LiveClaim(g, claim, g.genesis, r.turn(r.start))
    requires g.says(expired).body.DrawClaim? && g.says(expired).body.at != g.genesis
    ensures var s := {expired};
            var t := Top(g, s + {claim});
            Top(g, s) == s && |t| == |s| && Verdict(g, r, s) == None && Verdict(g, r, t).Some?
  {
    var s, t := {expired}, {claim};
    assert Rivals(g, s, expired) == {};
    LowerSurvives(g, s + {claim}, claim, expired);
    assert Top(g, s + {claim}) == t;
    NoMoves(g, r, s);
    NothingStated(g, r, s);
    SameSizeVerdictIff(g, r, s, {claim});
    assert ClaimedBy(g, t, g.genesis, r.turn(r.start));
  }

  lemma NothingStated(g: Game, r: Rules, s: set<RecordId>)
    requires Stale(r) && FraudPlies(g, s) == {} && ChainOf(g, r, s) == []
    requires forall id | id in s :: g.says(id).body.DrawClaim? && g.says(id).body.at != g.genesis
    ensures Verdict(g, r, s) == None
  {
  }

  /** RULES with every half-move clock at 100. */
  const STALE: Rules := RULES.(halfmoves := (p: Position) => 100)

  lemma StaleRules()
    ensures Stale(STALE) && STALE.turn(STALE.start) == White
  {
  }

  function ClaimAt(at: RecordId): RecordId {
    Code(Statement(WHITE, DrawClaim(0, at)))
  }

  lemma ClaimsAscend(at: RecordId, later: RecordId)
    requires at < later
    ensures ClaimAt(at) < ClaimAt(later)
  {
    PairGrows(0, at, later);
    PairGrows(4, Pair(0, at), Pair(0, later));
    PairGrows(WHITE, BodyCode(DrawClaim(0, at)), BodyCode(DrawClaim(0, later)));
  }

  lemma ClaimSays(at: RecordId)
    ensures GAME.says(ClaimAt(at)) == Statement(WHITE, DrawClaim(0, at))
    ensures GAME.GroupOf(ClaimAt(at)) == Some(Group(WHITE, KDrawClaim, 0))
    ensures LiveClaim(GAME, ClaimAt(at), at, White)
  {
    Says(Statement(WHITE, DrawClaim(0, at)));
  }

  /** White's claim at the start has a lower id than the expired one held. */
  lemma SizeHidesClaimExample() returns (expired: RecordId, claim: RecordId)
    ensures var t := Top(GAME, {expired} + {claim});
            |t| == |{expired}| && Verdict(GAME, STALE, {expired}) == None && Verdict(GAME, STALE, t).Some?
  {
    expired, claim := ClaimAt(GENESIS + 1), ClaimAt(GENESIS);
    StaleRules();
    ClaimSays(GENESIS);
    ClaimSays(GENESIS + 1);
    ClaimsAscend(GENESIS, GENESIS + 1);
    SizeHidesClaim(GAME, STALE, expired, claim);
  }

  // ---- A move it does not see, where what was read is over K ----

  /** Two offers in one slot and nothing else. */
  ghost predicate TwoOffers(g: Game, low: RecordId, high: RecordId) {
    low < high && g.says(low).body.DrawOffer? && g.says(high).body.DrawOffer? && g.GroupOf(low) == g.GroupOf(high)
  }

  lemma OffersDecideNothing(g: Game, r: Rules, low: RecordId, high: RecordId)
    requires TwoOffers(g, low, high)
    requires !r.checkmate(r.start) && !r.stalemate(r.start) && !r.insufficient(r.start)
    ensures FraudPlies(g, {low, high}) == {} && ChainOf(g, r, {low, high}) == []
    ensures Verdict(g, r, {low, high}) == None
  {
    NoMoves(g, r, {low, high});
    assert !Resigned(g, {low, high}, White) && !Resigned(g, {low, high}, Black);
  }

  /** The first move of the game comes in as one of the offers goes out. */
  lemma SizeHidesMove(g: Game, r: Rules, low: RecordId, high: RecordId, move: RecordId)
    requires TwoOffers(g, low, high) && Continues(g, r, [], move)
    requires !r.checkmate(r.start) && !r.stalemate(r.start) && !r.insufficient(r.start)
    ensures Top(g, {low, high} + {move}) == {low, move}
    ensures ChainOf(g, r, {low, high}) == [] && ChainOf(g, r, {low, move}) == [move]
    ensures !BoardStays(g, r, {low, high}, {low, move})
    ensures Verdict(g, r, {low, high}) == None && FraudPlies(g, {low, move}) == {}
  {
    var s := {low, high};
    OffersDecideNothing(g, r, low, high);
    LowerSurvives(g, s + {move}, low, high);
    assert Rivals(g, s + {move}, move) == {};
    assert Top(g, s + {move}) == {low, move};
    assert MovesAt(g, s, g.says(move).signer, 1) == {};
    FirstSignatureAdvances(g, r, s, move);
    OneMoveChain(g, r, {low, move}, move);
    assert Later(g, s, {low, move});
    BoardStaysIff(g, r, s, {low, move});
  }

  /** Two genuine offers: valid, and over K. */
  ghost function Both(g: Game, low: Record, high: Record): Records {
    map[g.Id(low) := low, g.Id(high) := high]
  }

  lemma BothIsOverK(g: Game, low: Record, high: Record)
    requires Contend(g, low, high) && g.Verify(low) && g.Verify(high)
    ensures var both := Both(g, low, high);
            && Authentic(g, both) && both.Keys == {g.Id(low), g.Id(high)} && !Normal(g, both)
    ensures TwoOffers(g, g.Id(low), g.Id(high))
  {
    var both := Both(g, low, high);
    ContendersFight(g, low, high);
    assert g.says(g.recordId(low.Says())) == low.Says();
    assert g.says(g.recordId(high.Says())) == high.Says();
    assert both.Keys == {g.Id(low), g.Id(high)};
    EvictedIsTop(g, both);
  }

  /** What a contract that holds them amounts to after one more valid record. */
  lemma OneMoreArrives(g: Game, held: Records, rec: Record)
    requires g.Sound() && Authentic(g, held) && g.Verify(rec) && g.Id(rec) !in held
    ensures var now := StateOf(g, held.Values + {rec});
            now.Keys == Top(g, held.Keys + {g.Id(rec)}) && Merged(g, held, now) == now
  {
    var more := held[g.Id(rec) := rec];
    forall r | r in held.Values ensures r in more.Values {
      var id :| id in held && held[id] == r;
      assert more[id] == r;
    }
    assert more[g.Id(rec)] == rec;
    assert more.Values == held.Values + {rec};
    NormalKeys(g, more);
    EvictedIsTop(g, more);
    assert more.Keys == held.Keys + {g.Id(rec)};
    MergeFromState(g, held, held.Values + {rec});
    UnionAssociates(held.Values, held.Values, {rec});
    UnionAbsorbs(held.Values, held.Values);
  }

  /** What is read is over K; then a first move mates, and the contract evicts an offer as it takes the
      move. The merge keeps the number of records, so nothing is reported, and the game is over. */
  lemma SizeHidesMate(g: Game, r: Rules, low: Record, high: Record, move: Record)
    requires Contend(g, low, high) && g.Verify(low) && g.Verify(high) && g.Verify(move)
    requires Continues(g, r, [], g.Id(move)) && r.turn(Replay(g, r, [g.Id(move)])) == Black
    requires r.checkmate(Replay(g, r, [g.Id(move)]))
    requires !r.checkmate(r.start) && !r.stalemate(r.start) && !r.insufficient(r.start)
    ensures var held := Both(g, low, high);
            var now := StateOf(g, held.Values + {move});
            && Authentic(g, held) && !Normal(g, held)
            && Merged(g, held, now) == now && |held.Keys| == |now.Keys|
            && ChainOf(g, r, held.Keys) == [] && ChainOf(g, r, now.Keys) == [g.Id(move)]
            && Verdict(g, r, held.Keys) == None
            && Verdict(g, r, now.Keys) == Some(Decision(Some(White), Checkmate))
  {
    var held := Both(g, low, high);
    BothIsOverK(g, low, high);
    assert g.says(g.recordId(move.Says())) == move.Says();
    OffersDecideNothing(g, r, g.Id(low), g.Id(high));
    SizeHidesMove(g, r, g.Id(low), g.Id(high), g.Id(move));
    OneMoreArrives(g, held, move);
    MateDecides(g, r, g.Id(low), g.Id(move));
  }

  lemma MateDecides(g: Game, r: Rules, low: RecordId, move: RecordId)
    requires g.says(low).body.DrawOffer? && Continues(g, r, [], move)
    requires ChainOf(g, r, {low, move}) == [move] && FraudPlies(g, {low, move}) == {}
    requires r.checkmate(Replay(g, r, [move])) && r.turn(Replay(g, r, [move])) == Black
    ensures Verdict(g, r, {low, move}) == Some(Decision(Some(White), Checkmate))
  {
    assert !Resigned(g, {low, move}, White) && !Resigned(g, {low, move}, Black);
    ChainDecides(g, r, {low, move});
  }

  /** RULES in which White's first move mates. */
  const MATE: Rules := RULES.(step := (p: Position, u: Uci) => if p == 0 && u == 0 then Some(1) else None,
                              checkmate := (p: Position) => p == 1)

  const MOVE: Record := Record(WHITE, Move(1, GENESIS, 0), GENUINE)

  lemma MoveMates()
    ensures MATE.Fair() && GAME.Verify(MOVE) && Continues(GAME, MATE, [], GAME.Id(MOVE))
    ensures !MATE.checkmate(MATE.start) && !MATE.stalemate(MATE.start) && !MATE.insufficient(MATE.start)
    ensures var pos := Replay(GAME, MATE, [GAME.Id(MOVE)]); MATE.checkmate(pos) && MATE.turn(pos) == Black
  {
    Says(MOVE.Says());
    assert [GAME.Id(MOVE)][..0] == [];
    assert Replay(GAME, MATE, [GAME.Id(MOVE)]) == 1;
  }

  lemma SizeHidesMoveExample() returns (held: Records, now: Records)
    ensures Authentic(GAME, held) && !Normal(GAME, held) && Normal(GAME, now)
    ensures Merged(GAME, held, now) == now && |held.Keys| == |now.Keys|
    ensures ChainOf(GAME, MATE, held.Keys) == [] && ChainOf(GAME, MATE, now.Keys) == [GAME.Id(MOVE)]
    ensures Verdict(GAME, MATE, held.Keys) == None
    ensures Verdict(GAME, MATE, now.Keys) == Some(Decision(Some(White), Checkmate))
  {
    held := Both(GAME, Rival(GENUINE), OFFER);
    now := StateOf(GAME, held.Values + {MOVE});
    RivalContends(GENUINE);
    MoveMates();
    SizeHidesMate(GAME, MATE, Rival(GENUINE), OFFER, MOVE);
    StateOfNormal(GAME, held.Values + {MOVE});
  }
}
