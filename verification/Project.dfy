/** Record set to game and verdict (common/src/project.rs): the specification on id sets, and the
    source's loops proved against it. */
module Project {
  import opened Types
  import opened Finite
  import opened State
  import opened Chess

  datatype Reason =
    | Checkmate | Stalemate | InsufficientMaterial | AutomaticDraw | Resignation | DrawAgreement
    | DoubleSignForfeit | MutualResignation | ThreefoldClaim | FiftyMoveClaim

  /** No winner means a draw. */
  datatype Decision = Decision(winner: Option<Color>, reason: Reason)

  datatype Fraud = Fraud(winner: Option<Color>, firstPly: nat)

  datatype WalkResult = WalkResult(pos: Position, chain: Chain, autoDraw: bool, repetitions: nat)

  datatype Status = Status(decision: Option<Decision>, ply: nat, turn: Color, pos: Position, chain: Chain,
                           ignored: nat, repetitions: nat, halfmoveClock: nat)

  // ---- Specification ----

  predicate IsMoveBy(g: Game, id: RecordId, signer: Key, ply: nat) {
    g.says(id).body.Move? && g.says(id).signer == signer && g.says(id).body.ply == ply
  }

  ghost function MovesAt(g: Game, s: set<RecordId>, signer: Key, ply: nat): set<RecordId> {
    set id | id in s && IsMoveBy(g, id, signer, ply)
  }

  /** The player of this colour signed two or more moves at this ply, legal or not. */
  ghost predicate DoubledAt(g: Game, s: set<RecordId>, c: Color, ply: nat) {
    g.params.ColorOf(g.params.KeyOf(c)) == Some(c) && |MovesAt(g, s, g.params.KeyOf(c), ply)| >= 2
  }

  ghost function FraudPlies(g: Game, s: set<RecordId>): set<nat> {
    set p: nat | p <= 0xFFFF && (DoubledAt(g, s, White, p) || DoubledAt(g, s, Black, p))
  }

  ghost predicate Blamed(g: Game, s: set<RecordId>, c: Color) {
    exists p: Ply :: DoubledAt(g, s, c, p)
  }

  ghost function FraudOf(g: Game, s: set<RecordId>): Option<Fraud> {
    if FraudPlies(g, s) == {} then None else
      Some(Fraud(if Blamed(g, s, White) && Blamed(g, s, Black) then None
                 else if Blamed(g, s, White) then Some(Black) else Some(White),
                 Least(FraudPlies(g, s))))
  }

  ghost function StopPly(g: Game, s: set<RecordId>): Option<nat> {
    if FraudPlies(g, s) == {} then None else Some(Least(FraudPlies(g, s)))
  }

  /** The accepted chain of a record set. */
  ghost function ChainOf(g: Game, r: Rules, s: set<RecordId>): Chain {
    Walked(g, r, s, StopPly(g, s))
  }

  ghost predicate Resigned(g: Game, s: set<RecordId>, c: Color) {
    exists id :: id in s && g.says(id).body.Resign? && g.params.ColorOf(g.says(id).signer) == Some(c)
  }

  /** `a` accepts the opponent's offer `o`, and `o` names the head. */
  predicate Agree(g: Game, a: RecordId, o: RecordId, head: RecordId) {
    && g.says(a).body.DrawAccept? && g.says(a).body.offer == o
    && g.says(o).body.DrawOffer? && g.says(o).body.at == head
    && g.params.ColorOf(g.says(a).signer).Some? && g.params.ColorOf(g.says(o).signer).Some?
    && g.params.ColorOf(g.says(a).signer) != g.params.ColorOf(g.says(o).signer)
  }

  ghost predicate DrawAgreed(g: Game, s: set<RecordId>, head: RecordId) {
    exists a, o :: a in s && o in s && Agree(g, a, o, head)
  }

  predicate LiveClaim(g: Game, id: RecordId, head: RecordId, turn: Color) {
    && g.says(id).body.DrawClaim? && g.says(id).body.at == head
    && g.params.ColorOf(g.says(id).signer) == Some(turn)
  }

  ghost predicate ClaimedBy(g: Game, s: set<RecordId>, head: RecordId, turn: Color) {
    exists id :: id in s && LiveClaim(g, id, head, turn)
  }

  /** The ground for a claim (FIDE Laws of Chess 9.2 and 9.3), repetition first. */
  function Ground(repetitions: nat, halfmoves: nat): Option<Reason> {
    if repetitions >= THREEFOLD then Some(ThreefoldClaim)
    else if halfmoves >= FIFTY_MOVE_HALFMOVES then Some(FiftyMoveClaim) else None
  }

  function BoardResult(r: Rules, pos: Position, autoDraw: bool): Option<Decision> {
    if r.checkmate(pos) then Some(Decision(Some(r.turn(pos).Other()), Checkmate))
    else if r.stalemate(pos) then Some(Decision(None, Stalemate))
    else if r.insufficient(pos) then Some(Decision(None, InsufficientMaterial))
    else if autoDraw then Some(Decision(None, AutomaticDraw))
    else None
  }

  /** Forfeit, then resignation. */
  ghost function ConductVerdict(g: Game, s: set<RecordId>): Option<Decision> {
    if FraudOf(g, s).Some? then Some(Decision(FraudOf(g, s).value.winner, DoubleSignForfeit))
    else if Resigned(g, s, White) && Resigned(g, s, Black) then Some(Decision(None, MutualResignation))
    else if Resigned(g, s, White) then Some(Decision(Some(Black), Resignation))
    else if Resigned(g, s, Black) then Some(Decision(Some(White), Resignation))
    else None
  }

  /** Then the board, then a claim, then an agreement. */
  ghost function ChainVerdict(g: Game, r: Rules, s: set<RecordId>, chain: Chain): Option<Decision> {
    var pos, head := Replay(g, r, chain), Head(g, chain);
    var board := BoardResult(r, pos, Halts(g, r, chain));
    var ground := Ground(Occurrences(g, r, chain), r.halfmoves(pos));
    if board.Some? then board
    else if ClaimedBy(g, s, head, r.turn(pos)) && ground.Some? then Some(Decision(None, ground.value))
    else if DrawAgreed(g, s, head) then Some(Decision(None, DrawAgreement))
    else None
  }

  ghost function Verdict(g: Game, r: Rules, s: set<RecordId>): Option<Decision> {
    if ConductVerdict(g, s).Some? then ConductVerdict(g, s) else ChainVerdict(g, r, s, ChainOf(g, r, s))
  }

  // ---- double_signed ----

  /** Counts `Move` records per signer and ply; legality and position are never consulted. */
  method DoubleSigned(g: Game, m: Records) returns (fraud: Option<Fraud>)
    requires g.Sound() && Keyed(g, m)
    ensures fraud == FraudOf(g, m.Keys)
  {
    var counts := CountMoves(g, m);
    var white, black, firstPly: Option<nat> := false, false, None;
    var pending: set<(Key, Ply)> := counts.Keys;
    ghost var done: set<(Key, Ply)> := {};
    TallyStart(g, m);
    while pending != {}
      invariant pending <= counts.Keys && done == counts.Keys - pending
      invariant TallyOf(g, m, done, white, black, firstPly)
      decreases |pending|
    {
      var at: (Key, Ply) :| at in pending;
      TallyStep(g, m, done, at, white, black, firstPly);
      TakenFrom(counts.Keys, pending, at);
      pending, done := pending - {at}, done + {at};
      var color := g.params.ColorOf(at.0);
      if counts[at] >= 2 && color.Some? {
        white := white || color.value.White?;
        black := black || color.value.Black?;
        firstPly := if firstPly.None? || at.1 < firstPly.value then Some(at.1) else firstPly;
      }
    }
    TallyIsFraud(g, m, done, white, black, firstPly);
    if firstPly.None? {
      return None;
    }
    return Some(Fraud(if white && black then None else if white then Some(Black) else Some(White), firstPly.value));
  }

  /** `counts` has the size of every non-empty class of moves in `s`. */
  ghost predicate Counted(g: Game, s: set<RecordId>, counts: map<(Key, Ply), nat>) {
    forall k: Key, p: Ply :: (if (k, p) in counts then counts[(k, p)] else 0) == |MovesAt(g, s, k, p)|
                             && ((k, p) in counts <==> MovesAt(g, s, k, p) != {})
  }

  method CountMoves(g: Game, m: Records) returns (counts: map<(Key, Ply), nat>)
    requires g.Sound() && Keyed(g, m)
    ensures Counted(g, m.Keys, counts)
  {
    counts := map[];
    var ids := InOrder(m.Keys);
    for i := 0 to |ids|
      invariant Counted(g, Members(ids[..i]), counts)
    {
      assert ids[i] in ids;
      SaysOf(g, m, ids[i]);
      var rec := m[ids[i]];
      CountOneMore(g, ids, i, counts);
      if rec.body.Move? {
        counts := Bumped(counts, (rec.signer, rec.body.ply));
      }
    }
    assert Members(ids[..|ids|]) == m.Keys;
  }

  lemma SaysOf(g: Game, m: Records, id: RecordId)
    requires g.Sound() && Keyed(g, m) && id in m
    ensures g.says(id) == m[id].Says()
  {
    assert g.says(g.recordId(m[id].Says())) == m[id].Says();
  }

  function Bumped(counts: map<(Key, Ply), nat>, at: (Key, Ply)): map<(Key, Ply), nat> {
    counts[at := (if at in counts then counts[at] else 0) + 1]
  }

  lemma CountOneMore(g: Game, ids: seq<RecordId>, i: nat, counts: map<(Key, Ply), nat>)
    requires StrictlyAscending(ids) && i < |ids| && Counted(g, Members(ids[..i]), counts)
    ensures var say := g.says(ids[i]);
            Counted(g, Members(ids[..i + 1]),
                    if say.body.Move? then Bumped(counts, (say.signer, say.body.ply)) else counts)
  {
    assert ids[..i + 1] == ids[..i] + [ids[i]];
    forall k: Key, p: Ply {
      MovesOneMore(g, ids, i, k, p);
    }
  }

  lemma MovesOneMore(g: Game, ids: seq<RecordId>, i: nat, k: Key, p: Ply)
    requires StrictlyAscending(ids) && i < |ids|
    ensures MovesAt(g, Members(ids[..i + 1]), k, p) ==
            MovesAt(g, Members(ids[..i]), k, p) + if IsMoveBy(g, ids[i], k, p) then {ids[i]} else {}
    ensures |MovesAt(g, Members(ids[..i + 1]), k, p)| ==
            |MovesAt(g, Members(ids[..i]), k, p)| + if IsMoveBy(g, ids[i], k, p) then 1 else 0
  {
    assert ids[..i + 1] == ids[..i] + [ids[i]];
  }

  /** A counted pair shows a double-sign by a player. */
  ghost predicate Tallied(g: Game, m: Records, seen: set<(Key, Ply)>, c: Color, p: Ply) {
    (g.params.KeyOf(c), p) in seen && DoubledAt(g, m.Keys, c, p)
  }

  /** What the second loop knows after the pairs in `seen`. */
  ghost predicate TallyOf(g: Game, m: Records, seen: set<(Key, Ply)>, white: bool, black: bool, firstPly: Option<nat>) {
    && (white <==> exists p: Ply :: Tallied(g, m, seen, White, p))
    && (black <==> exists p: Ply :: Tallied(g, m, seen, Black, p))
    && (firstPly.None? <==> !white && !black)
    && (firstPly.Some? ==>
      && firstPly.value <= 0xFFFF
      && (exists c :: Tallied(g, m, seen, c, firstPly.value))
      && (forall c: Color, p: Ply | Tallied(g, m, seen, c, p) :: firstPly.value <= p))
  }

  lemma TallyStart(g: Game, m: Records)
    ensures TallyOf(g, m, {}, false, false, None)
  {
  }

  lemma TalliedGrows(g: Game, m: Records, seen: set<(Key, Ply)>, at: (Key, Ply), d: Color, p: Ply)
    ensures Tallied(g, m, seen + {at}, d, p) <==>
            Tallied(g, m, seen, d, p) ||
            (|MovesAt(g, m.Keys, at.0, at.1)| >= 2 && g.params.ColorOf(at.0) == Some(d) && p == at.1)
  {
  }

  lemma TallyStep(g: Game, m: Records, seen: set<(Key, Ply)>, at: (Key, Ply), white: bool, black: bool,
                  firstPly: Option<nat>)
    requires TallyOf(g, m, seen, white, black, firstPly)
    ensures var c := g.params.ColorOf(at.0);
            if |MovesAt(g, m.Keys, at.0, at.1)| >= 2 && c.Some? then
              TallyOf(g, m, seen + {at}, white || c.value.White?, black || c.value.Black?,
                      if firstPly.None? || at.1 < firstPly.value then Some(at.1) else firstPly)
            else TallyOf(g, m, seen + {at}, white, black, firstPly)
  {
    forall d: Color, p: Ply ensures Tallied(g, m, seen + {at}, d, p) <==>
      Tallied(g, m, seen, d, p) ||
      (|MovesAt(g, m.Keys, at.0, at.1)| >= 2 && g.params.ColorOf(at.0) == Some(d) && p == at.1)
    {
      TalliedGrows(g, m, seen, at, d, p);
    }
    var c := g.params.ColorOf(at.0);
    if |MovesAt(g, m.Keys, at.0, at.1)| >= 2 && c.Some? {
      assert Tallied(g, m, seen + {at}, c.value, at.1);
    }
    if firstPly.Some? {
      var d :| Tallied(g, m, seen, d, firstPly.value);
      assert Tallied(g, m, seen + {at}, d, firstPly.value);
    }
  }

  lemma TallyIsFraud(g: Game, m: Records, seen: set<(Key, Ply)>, white: bool, black: bool, firstPly: Option<nat>)
    requires TallyOf(g, m, seen, white, black, firstPly)
    requires forall k: Key, p: Ply | MovesAt(g, m.Keys, k, p) != {} :: (k, p) in seen
    ensures white <==> Blamed(g, m.Keys, White)
    ensures black <==> Blamed(g, m.Keys, Black)
    ensures firstPly == StopPly(g, m.Keys)
  {
    forall c: Color, p: Ply ensures Tallied(g, m, seen, c, p) <==> DoubledAt(g, m.Keys, c, p) {
    }
    if firstPly.Some? {
      var c :| Tallied(g, m, seen, c, firstPly.value);
      assert firstPly.value in FraudPlies(g, m.Keys);
    }
  }

  // ---- walk ----

  /** The legal, correctly parented moves of the player whose turn it is, in id order. */
  method FindCandidates(g: Game, r: Rules, m: Records, pos: Position, parent: RecordId, ply: nat, ghost chain: Chain)
    returns (found: seq<RecordId>)
    requires g.Sound() && Keyed(g, m)
    requires ply == |chain| + 1 && parent == Head(g, chain) && pos == Replay(g, r, chain)
    ensures Lists(found, Candidates(g, r, m.Keys, chain))
    ensures forall id :: id in found <==>
              && id in m && m[id].body.Move? && m[id].body.ply == ply && m[id].body.parent == parent
              && m[id].signer == (if ply % 2 == 1 then g.params.white else g.params.black)
              && r.step(pos, m[id].body.uci).Some?
  {
    var expectedKey := g.params.KeyOf(ColorAtPly(ply));
    var ids := InOrder(m.Keys);
    found := [];
    for i := 0 to |ids|
      invariant Lists(found, Candidates(g, r, Members(ids[..i]), chain))
    {
      assert ids[i] in ids;
      SaysOf(g, m, ids[i]);
      var rec := m[ids[i]];
      CandidateOneMore(g, r, ids, i, chain);
      if rec.body.Move? && rec.body.ply == ply && rec.body.parent == parent && rec.signer == expectedKey
         && r.step(pos, rec.body.uci).Some? {
        ListingGrows(found, Candidates(g, r, Members(ids[..i]), chain), ids[i]);
        found := found + [ids[i]];
      }
    }
    assert Members(ids[..|ids|]) == m.Keys;
    forall id | id in m ensures g.says(id) == m[id].Says() {
      SaysOf(g, m, id);
    }
  }

  lemma CandidateOneMore(g: Game, r: Rules, ids: seq<RecordId>, i: nat, chain: Chain)
    requires StrictlyAscending(ids) && i < |ids|
    ensures Candidates(g, r, Members(ids[..i + 1]), chain) ==
            Candidates(g, r, Members(ids[..i]), chain) + if Continues(g, r, chain, ids[i]) then {ids[i]} else {}
    ensures forall y | y in Candidates(g, r, Members(ids[..i]), chain) :: y < ids[i]
  {
    assert ids[..i + 1] == ids[..i] + [ids[i]];
  }

  /** The `seen` map counts every repetition key of the replay so far. */
  ghost predicate Tracks(g: Game, r: Rules, seen: map<nat, nat>, chain: Chain) {
    forall key: nat :: (if key in seen then seen[key] else 0) == |Recurrences(g, r, chain, key)|
  }

  method Walk(g: Game, r: Rules, m: Records, stop: Option<nat>) returns (w: WalkResult)
    requires g.Sound() && Keyed(g, m)
    ensures w.chain == Walked(g, r, m.Keys, stop)
    ensures w.pos == Replay(g, r, w.chain)
    ensures w.autoDraw <==> Halts(g, r, w.chain)
    ensures w.repetitions == Occurrences(g, r, w.chain)
  {
    var pos, chain: Chain, parent, ply := r.start, [], g.genesis, 1;
    var seen: map<nat, nat>, repetitions: nat := map[r.key(pos) := 1], 1;
    StartTracks(g, r);
    while Before(stop, ply)
      invariant ply == |chain| + 1 && |chain| <= 0xFFFF
      invariant parent == Head(g, chain) && pos == Replay(g, r, chain)
      invariant Grow(g, r, m.Keys, stop, chain) == Walked(g, r, m.Keys, stop)
      invariant Tracks(g, r, seen, chain)
      invariant repetitions == Occurrences(g, r, chain)
      invariant !Halts(g, r, chain)
      decreases 0xFFFF - |chain|
    {
      var found := FindCandidates(g, r, m, pos, parent, ply, chain);
      ListingSize(found, Candidates(g, r, m.Keys, chain));
      if |found| != 1 {
        break;
      }
      var id := found[0];
      assert id in found;
      SaysOf(g, m, id);
      Advance(g, r, m.Keys, stop, chain, id, seen);
      pos := r.step(pos, m[id].body.uci).value;
      chain := chain + [id];
      parent := id;
      ply := ply + 1;
      repetitions := (if r.key(pos) in seen then seen[r.key(pos)] else 0) + 1;
      seen := seen[r.key(pos) := repetitions];
      if repetitions >= FIVEFOLD || r.halfmoves(pos) >= SEVENTY_FIVE_MOVE_HALFMOVES {
        return WalkResult(pos, chain, true, repetitions);
      }
    }
    w := WalkResult(pos, chain, false, repetitions);
  }

  lemma StartTracks(g: Game, r: Rules)
    ensures Tracks(g, r, map[r.key(r.start) := 1], []) && Occurrences(g, r, []) == 1
  {
    var none: Chain := [];
    assert none[..0] == none;
    assert forall key: nat :: Recurrences(g, r, none, key) == if key == r.key(r.start) then {0} else {};
  }

  /** One accepted move: the replay, the loop and the repetition table move together. */
  lemma Advance(g: Game, r: Rules, s: set<RecordId>, stop: Option<nat>, chain: Chain, id: RecordId,
                seen: map<nat, nat>)
    requires |chain| <= 0xFFFF && Before(stop, |chain| + 1) && !Halts(g, r, chain)
    requires id in Candidates(g, r, s, chain) && |Candidates(g, r, s, chain)| == 1
    requires Tracks(g, r, seen, chain)
    ensures var next, pos := chain + [id], r.step(Replay(g, r, chain), g.says(id).body.uci).value;
            var count := (if r.key(pos) in seen then seen[r.key(pos)] else 0) + 1;
            && |next| <= 0xFFFF
            && Replay(g, r, next) == pos && Head(g, next) == id
            && Grow(g, r, s, stop, chain) == Grow(g, r, s, stop, next)
            && Tracks(g, r, seen[r.key(pos) := count], next)
            && count == Occurrences(g, r, next)
  {
    var next := chain + [id];
    assert next[..|chain|] == chain;
    forall key: nat ensures |Recurrences(g, r, next, key)| ==
                            |Recurrences(g, r, chain, key)| + if key == r.key(Replay(g, r, next)) then 1 else 0
    {
      RecurrencesGrow(g, r, chain, id, key);
    }
    GrowByOnly(g, r, s, stop, chain, id);
  }

  lemma GrowByOnly(g: Game, r: Rules, s: set<RecordId>, stop: Option<nat>, chain: Chain, id: RecordId)
    requires |chain| < 0xFFFF && !Stuck(g, r, s, stop, chain) && id in Candidates(g, r, s, chain)
    ensures Grow(g, r, s, stop, chain) == Grow(g, r, s, stop, chain + [id])
  {
    var next :| next in Candidates(g, r, s, chain) && Grow(g, r, s, stop, chain) == Grow(g, r, s, stop, chain + [next]);
    AtMostOne(Candidates(g, r, s, chain), next, id);
  }

  // ---- Draws and resignations ----

  predicate DrawAgreedIn(g: Game, m: Records, head: RecordId) {
    exists a :: a in m && m[a].body.DrawAccept? &&
      var o := m[a].body.offer;
      && o in m && m[o].body.DrawOffer? && m[o].body.at == head
      && g.params.ColorOf(m[a].signer).Some? && g.params.ColorOf(m[o].signer).Some?
      && g.params.ColorOf(m[o].signer) != g.params.ColorOf(m[a].signer)
  }

  predicate LiveClaimIn(g: Game, m: Records, head: RecordId, turn: Color) {
    exists id :: id in m && m[id].body.DrawClaim? && m[id].body.at == head
                 && g.params.ColorOf(m[id].signer) == Some(turn)
  }

  function DrawClaimedIn(g: Game, m: Records, head: RecordId, turn: Color, repetitions: nat, halfmoves: nat)
    : Option<Reason>
  {
    if LiveClaimIn(g, m, head, turn) then Ground(repetitions, halfmoves) else None
  }

  lemma ReadsIds(g: Game, m: Records, head: RecordId, turn: Color)
    requires g.Sound() && Keyed(g, m)
    ensures DrawAgreedIn(g, m, head) <==> DrawAgreed(g, m.Keys, head)
    ensures LiveClaimIn(g, m, head, turn) <==> ClaimedBy(g, m.Keys, head, turn)
  {
    forall id | id in m ensures g.says(id) == m[id].Says() {
      SaysOf(g, m, id);
    }
    if DrawAgreed(g, m.Keys, head) {
      var a, o :| a in m.Keys && o in m.Keys && Agree(g, a, o, head);
      assert a in m && m[a].body.offer in m;
    }
    if DrawAgreedIn(g, m, head) {
      var a :| a in m && m[a].body.DrawAccept? &&
        var o := m[a].body.offer;
        && o in m && m[o].body.DrawOffer? && m[o].body.at == head
        && g.params.ColorOf(m[a].signer).Some? && g.params.ColorOf(m[o].signer).Some?
        && g.params.ColorOf(m[o].signer) != g.params.ColorOf(m[a].signer);
      assert Agree(g, a, m[a].body.offer, head);
    }
    if LiveClaimIn(g, m, head, turn) {
      var id :| id in m && m[id].body.DrawClaim? && m[id].body.at == head
                && g.params.ColorOf(m[id].signer) == Some(turn);
      assert LiveClaim(g, id, head, turn);
    }
    if ClaimedBy(g, m.Keys, head, turn) {
      var id :| id in m.Keys && LiveClaim(g, id, head, turn);
      assert id in m && m[id].body.DrawClaim?;
    }
  }

  method FindResignations(g: Game, m: Records) returns (white: bool, black: bool)
    requires g.Sound() && Keyed(g, m)
    ensures white <==> Resigned(g, m.Keys, White)
    ensures black <==> Resigned(g, m.Keys, Black)
  {
    white, black := false, false;
    var pending := m.Keys;
    while pending != {}
      invariant pending <= m.Keys
      invariant white <==> Resigned(g, m.Keys - pending, White)
      invariant black <==> Resigned(g, m.Keys - pending, Black)
      decreases |pending|
    {
      var id :| id in pending;
      SaysOf(g, m, id);
      ghost var done := m.Keys - pending;
      pending := pending - {id};
      assert m.Keys - pending == done + {id};
      ResignOneMore(g, done, id);
      if m[id].body.Resign? {
        var color := g.params.ColorOf(m[id].signer);
        white := white || color == Some(White);
        black := black || color == Some(Black);
      }
    }
    assert m.Keys - {} == m.Keys;
  }

  lemma ResignOneMore(g: Game, s: set<RecordId>, id: RecordId)
    ensures forall c :: Resigned(g, s + {id}, c) <==>
              Resigned(g, s, c) || (g.says(id).body.Resign? && g.params.ColorOf(g.says(id).signer) == Some(c))
  {
    forall c | Resigned(g, s, c) ensures Resigned(g, s + {id}, c) {
      var x :| x in s && g.says(x).body.Resign? && g.params.ColorOf(g.says(x).signer) == Some(c);
      assert x in s + {id};
    }
    assert id in s + {id};
  }

  // ---- project ----

  /** The whole game as a function of the record set. */
  method ProjectState(g: Game, r: Rules, m: Records) returns (status: Status)
    requires g.Sound() && Keyed(g, m)
    ensures status.chain == ChainOf(g, r, m.Keys)
    ensures status.decision == Verdict(g, r, m.Keys)
    ensures status.ply == |status.chain|
    ensures status.pos == Replay(g, r, status.chain)
    ensures status.turn == r.turn(status.pos) && status.halfmoveClock == r.halfmoves(status.pos)
    ensures status.repetitions == Occurrences(g, r, status.chain)
    ensures status.ignored == |set id | id in m && m[id].body.Move? && id !in status.chain|
  {
    var fraud := DoubleSigned(g, m);
    var w := Walk(g, r, m, if fraud.Some? then Some(fraud.value.firstPly) else None);
    var board := BoardResult(r, w.pos, w.autoDraw);
    var head := Head(g, w.chain);
    ReadsIds(g, m, head, r.turn(w.pos));
    var white, black := FindResignations(g, m);
    var decision: Option<Decision>;
    if fraud.Some? {
      decision := Some(Decision(fraud.value.winner, DoubleSignForfeit));
    } else if white && black {
      decision := Some(Decision(None, MutualResignation));
    } else if white {
      decision := Some(Decision(Some(Black), Resignation));
    } else if black {
      decision := Some(Decision(Some(White), Resignation));
    } else if board.Some? {
      decision := board;
    } else {
      var claim := DrawClaimedIn(g, m, head, r.turn(w.pos), w.repetitions, r.halfmoves(w.pos));
      if claim.Some? {
        decision := Some(Decision(None, claim.value));
      } else if DrawAgreedIn(g, m, head) {
        decision := Some(Decision(None, DrawAgreement));
      } else {
        decision := None;
      }
    }
    var ignored := set id | id in m && m[id].body.Move? && id !in w.chain;
    status := Status(decision, |w.chain|, r.turn(w.pos), w.pos, w.chain, |ignored|, w.repetitions, r.halfmoves(w.pos));
  }
}
