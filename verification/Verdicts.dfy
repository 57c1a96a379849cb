/** The game and its verdict, said of the records and the positions themselves (common/src/project.rs). */
module Verdicts {
  import opened Types
  import opened Finite
  import opened Chess
  import opened Project
  import opened Finality

  // ---- The game ----

  /** `c` are moves of `s`, each following the one before, and `at` the positions they pass through. */
  ghost predicate Played(g: Game, r: Rules, s: set<RecordId>, c: seq<RecordId>, at: seq<Position>) {
    && |at| == |c| + 1 && at[0] == r.start
    && forall i | 0 <= i < |c| :: MoveAt(g, r, s, c, at, i)
  }

  ghost predicate MoveAt(g: Game, r: Rules, s: set<RecordId>, c: seq<RecordId>, at: seq<Position>, i: nat)
    requires i < |c| && |at| == |c| + 1
  {
    && c[i] in s && Follows(g, r, c[..i], at[i], c[i])
    && r.step(at[i], g.says(c[i]).body.uci) == Some(at[i + 1])
  }

  lemma MoveAtPrefix(g: Game, r: Rules, s: set<RecordId>, c: Chain, at: seq<Position>, n: nat, i: nat)
    requires i < n <= |c| && |at| == |c| + 1
    ensures MoveAt(g, r, s, c[..n], at[..n + 1], i) <==> MoveAt(g, r, s, c, at, i)
  {
    assert c[..n][..i] == c[..i];
  }

  /** The moments up to `n` at which the position of moment `n` was on the board. */
  ghost function Repeats(r: Rules, at: seq<Position>, n: nat): set<nat>
    requires n < |at|
  {
    set j: nat | j <= n && r.key(at[j]) == r.key(at[n])
  }

  /** Five occurrences, or 75 moves by each player without a capture or a pawn move. */
  ghost predicate EndsAt(r: Rules, at: seq<Position>, n: nat)
    requires n < |at|
  {
    n > 0 && (|Repeats(r, at, n)| >= 5 || r.halfmoves(at[n]) >= 150)
  }

  /** Two moves by one player at one ply. */
  ghost predicate TwoMoves(g: Game, s: set<RecordId>, p: nat) {
    exists i, j :: i in s && j in s && i != j && g.says(i).signer == g.says(j).signer
                   && (g.says(i).signer == g.params.white || g.says(i).signer == g.params.black)
                   && g.says(i).body.Move? && g.says(j).body.Move?
                   && g.says(i).body.ply == p && g.says(j).body.ply == p
  }

  ghost predicate CleanTo(g: Game, s: set<RecordId>, p: nat) {
    forall q: nat | q <= p :: !TwoMoves(g, s, q)
  }

  /** The game in `s`: nothing in it ends it early, no player moved twice at or before one of its plies,
      and it goes on until it ends, somebody has moved twice, or nothing follows. */
  ghost predicate Complete(g: Game, r: Rules, s: set<RecordId>, c: seq<RecordId>, at: seq<Position>) {
    && Played(g, r, s, c, at)
    && (forall n: nat | n < |c| :: !EndsAt(r, at, n))
    && (c != [] ==> CleanTo(g, s, |c|))
    && (EndsAt(r, at, |c|) || !CleanTo(g, s, |c| + 1) || forall id | id in s :: !Follows(g, r, c, at[|c|], id))
  }

  ghost function Positions(g: Game, r: Rules, c: Chain): seq<Position> {
    seq(|c| + 1, i requires 0 <= i < |c| + 1 => Replay(g, r, c[..i]))
  }

  lemma PlayedPositions(g: Game, r: Rules, s: set<RecordId>, c: Chain, at: seq<Position>)
    requires Played(g, r, s, c, at)
    ensures at == Positions(g, r, c)
  {
    forall i | 0 <= i <= |c| ensures at[i] == Replay(g, r, c[..i]) {
      PlayedReplays(g, r, s, c, at, i);
    }
  }

  lemma {:induction false} PlayedReplays(g: Game, r: Rules, s: set<RecordId>, c: Chain, at: seq<Position>, n: nat)
    requires Played(g, r, s, c, at) && n <= |c|
    ensures at[n] == Replay(g, r, c[..n])
  {
    if n > 0 {
      PlayedReplays(g, r, s, c, at, n - 1);
      assert MoveAt(g, r, s, c, at, n - 1);
      assert c[..n][..n - 1] == c[..n - 1];
    }
  }

  /** The replay counts repetitions as the positions do. */
  lemma EndsIsHalts(g: Game, r: Rules, c: Chain, n: nat)
    requires n <= |c|
    ensures EndsAt(r, Positions(g, r, c), n) <==> Halts(g, r, c[..n])
    ensures |Repeats(r, Positions(g, r, c), n)| == Occurrences(g, r, c[..n])
  {
    var at, prefix := Positions(g, r, c), c[..n];
    forall i | 0 <= i <= n ensures prefix[..i] == c[..i] {
    }
    assert at[n] == Replay(g, r, prefix);
    assert Repeats(r, at, n) == Recurrences(g, r, prefix, r.key(Replay(g, r, prefix)));
  }

  lemma TwoMovesIsFraud(g: Game, s: set<RecordId>, p: Ply)
    ensures TwoMoves(g, s, p) <==> p in FraudPlies(g, s)
  {
    if TwoMoves(g, s, p) {
      var i, j :| i in s && j in s && i != j && g.says(i).signer == g.says(j).signer
                  && (g.says(i).signer == g.params.white || g.says(i).signer == g.params.black)
                  && g.says(i).body.Move? && g.says(j).body.Move?
                  && g.says(i).body.ply == p && g.says(j).body.ply == p;
      var c := g.params.ColorOf(g.says(i).signer).value;
      TwoInMoves(g, s, c, p, i, j);
    }
    if DoubledAt(g, s, White, p) {
      DoubledIsTwo(g, s, White, p);
    }
    if DoubledAt(g, s, Black, p) {
      DoubledIsTwo(g, s, Black, p);
    }
  }

  lemma DoubledIsTwo(g: Game, s: set<RecordId>, c: Color, p: nat)
    requires DoubledAt(g, s, c, p)
    ensures TwoMoves(g, s, p)
  {
    var i, j := PickTwo(MovesAt(g, s, g.params.KeyOf(c), p));
    assert g.says(i).signer == g.says(j).signer == g.params.KeyOf(c);
  }

  lemma TwoInMoves(g: Game, s: set<RecordId>, c: Color, p: nat, i: RecordId, j: RecordId)
    requires i in s && j in s && i != j && IsMoveBy(g, i, g.params.KeyOf(c), p) && IsMoveBy(g, j, g.params.KeyOf(c), p)
    ensures |MovesAt(g, s, g.params.KeyOf(c), p)| >= 2
  {
    SubsetSize({i, j}, MovesAt(g, s, g.params.KeyOf(c), p));
  }

  lemma PickTwo<T>(s: set<T>) returns (x: T, y: T)
    requires |s| >= 2
    ensures x in s && y in s && x != y
  {
    x :| x in s;
    assert |s - {x}| >= 1;
    y :| y in s - {x};
  }

  lemma CleanIsBefore(g: Game, s: set<RecordId>, p: nat)
    requires p <= 0xFFFF + 1
    ensures CleanTo(g, s, p) <==> Before(StopPly(g, s), p)
  {
    forall q: nat | q <= p ensures TwoMoves(g, s, q) <==> q in FraudPlies(g, s) {
      if q <= 0xFFFF {
        TwoMovesIsFraud(g, s, q);
      }
    }
    if FraudPlies(g, s) != {} {
      assert StopPly(g, s).value in FraudPlies(g, s);
    }
  }

  lemma LegalIsPlayed(g: Game, r: Rules, s: set<RecordId>, stop: Option<nat>, c: Chain)
    ensures Legal(g, r, s, stop, c) <==>
            Played(g, r, s, c, Positions(g, r, c))
            && (forall n: nat | n < |c| :: !Halts(g, r, c[..n]))
            && (c != [] ==> Before(stop, |c|))
  {
    assert c[..|c|] == c;
    if Legal(g, r, s, stop, c) {
      LegalPlays(g, r, s, stop, c);
      forall n: nat | n < |c| ensures !Halts(g, r, c[..n]) {
        LegalPrefix(g, r, s, stop, c, n);
      }
    } else if Played(g, r, s, c, Positions(g, r, c)) && (forall n: nat | n < |c| :: !Halts(g, r, c[..n]))
              && (c != [] ==> Before(stop, |c|)) {
      PlayedIsLegal(g, r, s, stop, c, |c|);
    }
  }

  lemma {:induction false} LegalPlays(g: Game, r: Rules, s: set<RecordId>, stop: Option<nat>, c: Chain)
    requires Legal(g, r, s, stop, c)
    ensures Played(g, r, s, c, Positions(g, r, c))
  {
    if c != [] {
      LegalPlays(g, r, s, stop, c[..|c| - 1]);
      LastIsPlayed(g, r, s, c);
    }
  }

  lemma {:induction false} PlayedIsLegal(g: Game, r: Rules, s: set<RecordId>, stop: Option<nat>, c: Chain, n: nat)
    requires Played(g, r, s, c, Positions(g, r, c)) && n <= |c| && (c != [] ==> Before(stop, |c|))
    requires forall k: nat | k < |c| :: !Halts(g, r, c[..k])
    ensures Legal(g, r, s, stop, c[..n])
  {
    if n > 0 {
      PlayedIsLegal(g, r, s, stop, c, n - 1);
      var init, id := c[..n - 1], c[n - 1];
      assert MoveAt(g, r, s, c, Positions(g, r, c), n - 1);
      assert c[..n] == init + [id];
      StepIsLegal(g, r, s, stop, init, id);
    }
  }

  lemma StepIsLegal(g: Game, r: Rules, s: set<RecordId>, stop: Option<nat>, init: Chain, id: RecordId)
    requires Legal(g, r, s, stop, init) && !Halts(g, r, init) && Before(stop, |init| + 1)
    requires id in s && Follows(g, r, init, Replay(g, r, init), id)
    ensures Legal(g, r, s, stop, init + [id])
  {
    FollowsIsContinues(g, r, init, id);
    assert (init + [id])[..|init|] == init;
  }

  lemma LastIsPlayed(g: Game, r: Rules, s: set<RecordId>, c: Chain)
    requires c != [] && c[|c| - 1] in Candidates(g, r, s, c[..|c| - 1])
    requires Played(g, r, s, c[..|c| - 1], Positions(g, r, c[..|c| - 1]))
    ensures Played(g, r, s, c, Positions(g, r, c))
  {
    var n, at := |c| - 1, Positions(g, r, c);
    var init, before := c[..n], Positions(g, r, c[..n]);
    FollowsIsContinues(g, r, init, c[n]);
    assert c[..n + 1] == c;
    PositionsPrefix(g, r, c, n);
    forall i | 0 <= i < |c| ensures MoveAt(g, r, s, c, at, i) {
      if i < n {
        MoveAtPrefix(g, r, s, c, at, n, i);
      }
    }
  }

  lemma PositionsPrefix(g: Game, r: Rules, c: Chain, n: nat)
    requires n <= |c|
    ensures Positions(g, r, c)[..n + 1] == Positions(g, r, c[..n])
  {
    forall i | 0 <= i <= n ensures c[..n][..i] == c[..i] {
    }
  }

  /** There is one complete game in any set, and it is the accepted chain. */
  lemma GameIsComplete(g: Game, r: Rules, s: set<RecordId>)
    ensures Complete(g, r, s, ChainOf(g, r, s), Positions(g, r, ChainOf(g, r, s)))
  {
    var c := ChainOf(g, r, s);
    ChainEnds(g, r, s);
    LegalIsPlayed(g, r, s, StopPly(g, s), c);
    ChainFits(g, r, s);
    CompleteParts(g, r, s, c);
  }

  lemma CompleteIsGame(g: Game, r: Rules, s: set<RecordId>, c: seq<RecordId>, at: seq<Position>)
    requires Complete(g, r, s, c, at)
    ensures c == ChainOf(g, r, s) && at == Positions(g, r, c)
  {
    var board := ChainOf(g, r, s);
    PlayedPositions(g, r, s, c, at);
    PlayedFits(g, r, s, c, at);
    CompleteParts(g, r, s, c);
    LegalIsPlayed(g, r, s, StopPly(g, s), c);
    ChainIsMaximal(g, r, s, c);
    PrefixIsTake(c, board);
    ChainEnds(g, r, s);
    if |c| < |board| {
      LegalPrefix(g, r, s, StopPly(g, s), board, |c|);
    }
  }

  /** The conditions of a complete game, as the walk states them. */
  lemma CompleteParts(g: Game, r: Rules, s: set<RecordId>, c: Chain)
    requires |c| <= 0xFFFF
    ensures Complete(g, r, s, c, Positions(g, r, c)) <==>
            && Played(g, r, s, c, Positions(g, r, c))
            && (forall n: nat | n < |c| :: !Halts(g, r, c[..n]))
            && (c != [] ==> Before(StopPly(g, s), |c|))
            && (Halts(g, r, c) || !Before(StopPly(g, s), |c| + 1) || Candidates(g, r, s, c) == {})
  {
    var at := Positions(g, r, c);
    assert c[..|c|] == c;
    forall n: nat | n <= |c| ensures EndsAt(r, at, n) <==> Halts(g, r, c[..n]) {
      EndsIsHalts(g, r, c, n);
    }
    CleanIsBefore(g, s, |c|);
    CleanIsBefore(g, s, |c| + 1);
    NothingFollows(g, r, s, c);
  }

  lemma NothingFollows(g: Game, r: Rules, s: set<RecordId>, c: Chain)
    ensures (forall id | id in s :: !Follows(g, r, c, Positions(g, r, c)[|c|], id)) <==> Candidates(g, r, s, c) == {}
  {
    assert c[..|c|] == c;
    forall id | id in s ensures Follows(g, r, c, Positions(g, r, c)[|c|], id) <==> id in Candidates(g, r, s, c) {
      FollowsIsContinues(g, r, c, id);
    }
  }

  lemma ChainFits(g: Game, r: Rules, s: set<RecordId>)
    ensures |ChainOf(g, r, s)| <= 0xFFFF
  {
    ChainEnds(g, r, s);
    LegalMembers(g, r, s, StopPly(g, s), ChainOf(g, r, s));
    var c := ChainOf(g, r, s);
    if c != [] {
      assert g.says(c[|c| - 1]).body.ply == |c|;
    }
  }

  lemma PlayedFits(g: Game, r: Rules, s: set<RecordId>, c: Chain, at: seq<Position>)
    requires Played(g, r, s, c, at)
    ensures |c| <= 0xFFFF
  {
    if c != [] {
      assert MoveAt(g, r, s, c, at, |c| - 1);
    }
  }

  /** In particular every move of the chain names the move before it, and the first names the genesis. */
  lemma ChainIsLinked(g: Game, r: Rules, s: set<RecordId>, i: nat)
    requires i < |ChainOf(g, r, s)|
    ensures var c := ChainOf(g, r, s);
            && c[i] in s && g.says(c[i]).body.Move? && g.says(c[i]).body.ply == i + 1
            && g.says(c[i]).body.parent == (if i == 0 then g.genesis else c[i - 1])
            && g.says(c[i]).signer == (if i % 2 == 0 then g.params.white else g.params.black)
  {
    GameIsComplete(g, r, s);
    assert MoveAt(g, r, s, ChainOf(g, r, s), Positions(g, r, ChainOf(g, r, s)), i);
  }

  /** The fraud found is the first, at the least ply with two moves by one player. */
  lemma FirstFraudMeans(g: Game, s: set<RecordId>)
    ensures FraudOf(g, s).Some? <==> exists p: Ply :: TwoMoves(g, s, p)
    ensures FraudOf(g, s).Some? ==>
      var first := FraudOf(g, s).value.firstPly;
      TwoMoves(g, s, first) && forall q: nat | q < first :: !TwoMoves(g, s, q)
  {
    forall p: Ply ensures TwoMoves(g, s, p) <==> p in FraudPlies(g, s) {
      TwoMovesIsFraud(g, s, p);
    }
    if FraudOf(g, s).Some? {
      var first: Ply := FraudOf(g, s).value.firstPly;
      assert TwoMoves(g, s, first);
      forall q: nat | q < first ensures !TwoMoves(g, s, q) {
        TwoMovesIsFraud(g, s, q);
      }
    }
  }

  // ---- The verdict ----

  /** `k` is the key of the player of colour `c`. One key for both colours is White's. */
  ghost predicate Plays(g: Game, c: Color, k: Key) {
    if c.White? then k == g.params.white else k == g.params.black && k != g.params.white
  }

  /** A player of this colour moved twice at one ply. */
  ghost predicate MovedTwice(g: Game, s: set<RecordId>, c: Color) {
    exists i, j :: i in s && j in s && i != j && g.says(i).signer == g.says(j).signer && Plays(g, c, g.says(i).signer)
                   && g.says(i).body.Move? && g.says(j).body.Move? && g.says(i).body.ply == g.says(j).body.ply
  }

  ghost predicate GaveUp(g: Game, s: set<RecordId>, c: Color) {
    exists id :: id in s && g.says(id).body.Resign? && Plays(g, c, g.says(id).signer)
  }

  ghost function Last(g: Game, c: seq<RecordId>): RecordId {
    if |c| == 0 then g.genesis else c[|c| - 1]
  }

  /** The player to move claims a draw at the end of `c`. */
  ghost predicate Claims(g: Game, s: set<RecordId>, c: seq<RecordId>, mover: Color) {
    exists id :: id in s && g.says(id).body.DrawClaim? && g.says(id).body.at == Last(g, c)
                 && Plays(g, mover, g.says(id).signer)
  }

  /** One player offered a draw at the end of `c`, and the other accepted that offer. */
  ghost predicate Shake(g: Game, s: set<RecordId>, c: seq<RecordId>) {
    exists a, o, us: Color, them: Color ::
      a in s && o in s && us != them && Plays(g, us, g.says(a).signer) && Plays(g, them, g.says(o).signer)
      && g.says(a).body.DrawAccept? && g.says(a).body.offer == o
      && g.says(o).body.DrawOffer? && g.says(o).body.at == Last(g, c)
  }

  lemma PlaysIsColor(g: Game, c: Color, k: Key)
    ensures Plays(g, c, k) <==> g.params.ColorOf(k) == Some(c)
  {
  }

  lemma MovedTwiceIsBlamed(g: Game, s: set<RecordId>, c: Color)
    ensures MovedTwice(g, s, c) <==> Blamed(g, s, c)
  {
    var k := g.params.KeyOf(c);
    if MovedTwice(g, s, c) {
      var i, j :| i in s && j in s && i != j && g.says(i).signer == g.says(j).signer && Plays(g, c, g.says(i).signer)
                  && g.says(i).body.Move? && g.says(j).body.Move? && g.says(i).body.ply == g.says(j).body.ply;
      TwoInMoves(g, s, c, g.says(i).body.ply, i, j);
      assert DoubledAt(g, s, c, g.says(i).body.ply);
    }
    if Blamed(g, s, c) {
      var p: Ply :| DoubledAt(g, s, c, p);
      var i, j := PickTwo(MovesAt(g, s, k, p));
      assert g.says(i).signer == g.says(j).signer == k && Plays(g, c, k);
    }
  }

  lemma GaveUpIsResigned(g: Game, s: set<RecordId>, c: Color)
    ensures GaveUp(g, s, c) <==> Resigned(g, s, c)
  {
    forall k ensures Plays(g, c, k) <==> g.params.ColorOf(k) == Some(c) {
      PlaysIsColor(g, c, k);
    }
  }

  lemma ClaimsIsClaimed(g: Game, s: set<RecordId>, c: Chain, mover: Color)
    ensures Claims(g, s, c, mover) <==> ClaimedBy(g, s, Head(g, c), mover)
  {
    if Claims(g, s, c, mover) {
      var id :| id in s && g.says(id).body.DrawClaim? && g.says(id).body.at == Last(g, c)
                && Plays(g, mover, g.says(id).signer);
      assert LiveClaim(g, id, Head(g, c), mover);
    }
    if ClaimedBy(g, s, Head(g, c), mover) {
      var id :| id in s && LiveClaim(g, id, Head(g, c), mover);
      assert Plays(g, mover, g.says(id).signer);
    }
  }

  lemma ShakeIsAgreed(g: Game, s: set<RecordId>, c: Chain)
    ensures Shake(g, s, c) <==> DrawAgreed(g, s, Head(g, c))
  {
    if Shake(g, s, c) {
      var a, o, us: Color, them: Color :|
        a in s && o in s && us != them && Plays(g, us, g.says(a).signer) && Plays(g, them, g.says(o).signer)
        && g.says(a).body.DrawAccept? && g.says(a).body.offer == o
        && g.says(o).body.DrawOffer? && g.says(o).body.at == Last(g, c);
      assert Agree(g, a, o, Head(g, c));
    }
    if DrawAgreed(g, s, Head(g, c)) {
      var a, o :| a in s && o in s && Agree(g, a, o, Head(g, c));
      var us, them := g.params.ColorOf(g.says(a).signer).value, g.params.ColorOf(g.says(o).signer).value;
      assert Plays(g, us, g.says(a).signer) && Plays(g, them, g.says(o).signer);
    }
  }

  ghost predicate Because(d: Option<Decision>, why: Reason) {
    d.Some? && d.value.reason == why
  }

  /** A double-sign decides before everything else, against whoever alone did it. */
  lemma ForfeitMeans(g: Game, r: Rules, s: set<RecordId>)
    ensures var d := Verdict(g, r, s);
            && (Because(d, DoubleSignForfeit) <==> MovedTwice(g, s, White) || MovedTwice(g, s, Black))
            && forall c: Color :: MovedTwice(g, s, c) && !MovedTwice(g, s, c.Other()) ==>
                 d == Some(Decision(Some(c.Other()), DoubleSignForfeit))
    ensures MovedTwice(g, s, White) && MovedTwice(g, s, Black) ==>
            Verdict(g, r, s) == Some(Decision(None, DoubleSignForfeit))
  {
    MovedTwiceIsBlamed(g, s, White);
    MovedTwiceIsBlamed(g, s, Black);
    SomeoneIsBlamed(g, s);
    ForfeitVerdict(g, r, s);
  }

  lemma ForfeitVerdict(g: Game, r: Rules, s: set<RecordId>)
    ensures FraudOf(g, s).Some? ==> Verdict(g, r, s) == Some(Decision(FraudOf(g, s).value.winner, DoubleSignForfeit))
    ensures FraudOf(g, s).None? ==> !Because(Verdict(g, r, s), DoubleSignForfeit)
  {
  }

  ghost predicate Clean(g: Game, s: set<RecordId>) {
    !MovedTwice(g, s, White) && !MovedTwice(g, s, Black)
  }

  lemma CleanIsNoFraud(g: Game, s: set<RecordId>)
    ensures Clean(g, s) <==> FraudOf(g, s).None?
  {
    MovedTwiceIsBlamed(g, s, White);
    MovedTwiceIsBlamed(g, s, Black);
    SomeoneIsBlamed(g, s);
  }

  /** Then resignations, in favour of the other player, or of nobody when both resign. */
  lemma ResignationMeans(g: Game, r: Rules, s: set<RecordId>)
    ensures var d := Verdict(g, r, s);
            && (Because(d, MutualResignation) <==> Clean(g, s) && GaveUp(g, s, White) && GaveUp(g, s, Black))
            && (Because(d, Resignation) <==> Clean(g, s) && GaveUp(g, s, White) != GaveUp(g, s, Black))
    ensures forall c: Color :: Clean(g, s) && GaveUp(g, s, c) && !GaveUp(g, s, c.Other()) ==>
              Verdict(g, r, s) == Some(Decision(Some(c.Other()), Resignation))
    ensures Because(Verdict(g, r, s), MutualResignation) ==> Verdict(g, r, s).value.winner == None
  {
    CleanIsNoFraud(g, s);
    GaveUpIsResigned(g, s, White);
    GaveUpIsResigned(g, s, Black);
    ResignationVerdict(g, r, s);
  }

  lemma ResignationVerdict(g: Game, r: Rules, s: set<RecordId>)
    ensures var d, w, b, fair := Verdict(g, r, s), Resigned(g, s, White), Resigned(g, s, Black), FraudOf(g, s).None?;
            && (Because(d, MutualResignation) <==> fair && w && b)
            && (Because(d, Resignation) <==> fair && w != b)
            && (fair && w && !b ==> d == Some(Decision(Some(Black), Resignation)))
            && (fair && b && !w ==> d == Some(Decision(Some(White), Resignation)))
            && (fair && b && w ==> d == Some(Decision(None, MutualResignation)))
  {
  }

  ghost predicate Undisputed(g: Game, s: set<RecordId>) {
    Clean(g, s) && !GaveUp(g, s, White) && !GaveUp(g, s, Black)
  }

  /** Then the board: mate for the side that just moved, and the draws nobody has to ask for. */
  lemma BoardMeans(g: Game, r: Rules, s: set<RecordId>, c: seq<RecordId>, at: seq<Position>)
    requires Complete(g, r, s, c, at)
    ensures var d, pos, open := Verdict(g, r, s), at[|c|], Undisputed(g, s);
            && (Because(d, Checkmate) <==> open && r.checkmate(pos))
            && (Because(d, Stalemate) <==> open && !r.checkmate(pos) && r.stalemate(pos))
            && (Because(d, InsufficientMaterial) <==>
                open && !r.checkmate(pos) && !r.stalemate(pos) && r.insufficient(pos))
            && (Because(d, AutomaticDraw) <==>
                open && !r.checkmate(pos) && !r.stalemate(pos) && !r.insufficient(pos) && EndsAt(r, at, |c|))
            && (Because(d, Checkmate) ==> d.value.winner == Some(r.turn(pos).Other()))
            && (Because(d, Stalemate) || Because(d, InsufficientMaterial) || Because(d, AutomaticDraw) ==>
                d.value.winner == None)
  {
    OnTheBoard(g, r, s, c, at);
    BoardVerdict(g, r, s);
  }

  /** What the walk hands the verdict. */
  lemma OnTheBoard(g: Game, r: Rules, s: set<RecordId>, c: seq<RecordId>, at: seq<Position>)
    requires Complete(g, r, s, c, at)
    ensures c == ChainOf(g, r, s) && at[|c|] == Replay(g, r, c)
    ensures EndsAt(r, at, |c|) <==> Halts(g, r, c)
    ensures |Repeats(r, at, |c|)| == Occurrences(g, r, c)
    ensures Undisputed(g, s) <==> ConductVerdict(g, s) == None
  {
    CompleteIsGame(g, r, s, c, at);
    assert c[..|c|] == c;
    EndsIsHalts(g, r, c, |c|);
    CleanIsNoFraud(g, s);
    GaveUpIsResigned(g, s, White);
    GaveUpIsResigned(g, s, Black);
  }

  lemma BoardVerdict(g: Game, r: Rules, s: set<RecordId>)
    ensures var c := ChainOf(g, r, s);
            var d, pos, open, ends := Verdict(g, r, s), Replay(g, r, c), ConductVerdict(g, s) == None, Halts(g, r, c);
            && (Because(d, Checkmate) <==> open && r.checkmate(pos))
            && (Because(d, Stalemate) <==> open && !r.checkmate(pos) && r.stalemate(pos))
            && (Because(d, InsufficientMaterial) <==>
                open && !r.checkmate(pos) && !r.stalemate(pos) && r.insufficient(pos))
            && (Because(d, AutomaticDraw) <==>
                open && !r.checkmate(pos) && !r.stalemate(pos) && !r.insufficient(pos) && ends)
            && (Because(d, Checkmate) ==> d.value.winner == Some(r.turn(pos).Other()))
            && (Because(d, Stalemate) || Because(d, InsufficientMaterial) || Because(d, AutomaticDraw) ==>
                d.value.winner == None)
  {
  }

  /** Nobody's conduct and nothing on the board decides. */
  ghost predicate Open(g: Game, r: Rules, s: set<RecordId>, at: seq<Position>)
    requires at != []
  {
    var n := |at| - 1;
    && Undisputed(g, s) && !r.checkmate(at[n]) && !r.stalemate(at[n]) && !r.insufficient(at[n]) && !EndsAt(r, at, n)
  }

  /** Then a claim by the player to move, threefold before fifty moves; then an agreement; then nothing. */
  lemma StatementMeans(g: Game, r: Rules, s: set<RecordId>, c: seq<RecordId>, at: seq<Position>)
    requires Complete(g, r, s, c, at)
    ensures var d, pos, open := Verdict(g, r, s), at[|c|], Open(g, r, s, at);
            var claims, times, half := Claims(g, s, c, r.turn(pos)), |Repeats(r, at, |c|)|, r.halfmoves(pos);
            && (Because(d, ThreefoldClaim) <==> open && claims && times >= 3)
            && (Because(d, FiftyMoveClaim) <==> open && claims && times < 3 && half >= 100)
            && (Because(d, DrawAgreement) <==> open && !(claims && (times >= 3 || half >= 100)) && Shake(g, s, c))
            && (d == None <==> open && !(claims && (times >= 3 || half >= 100)) && !Shake(g, s, c))
            && (Because(d, ThreefoldClaim) || Because(d, FiftyMoveClaim) || Because(d, DrawAgreement) ==>
                d.value.winner == None)
  {
    OnTheBoard(g, r, s, c, at);
    ClaimsIsClaimed(g, s, c, r.turn(at[|c|]));
    ShakeIsAgreed(g, s, c);
    StatementVerdict(g, r, s);
  }

  lemma StatementVerdict(g: Game, r: Rules, s: set<RecordId>)
    ensures var c := ChainOf(g, r, s);
            var d, pos, head := Verdict(g, r, s), Replay(g, r, c), Head(g, c);
            var open := ConductVerdict(g, s) == None && !r.checkmate(pos) && !r.stalemate(pos) && !r.insufficient(pos)
                        && !Halts(g, r, c);
            var claims, times, half := ClaimedBy(g, s, head, r.turn(pos)), Occurrences(g, r, c), r.halfmoves(pos);
            && (Because(d, ThreefoldClaim) <==> open && claims && times >= 3)
            && (Because(d, FiftyMoveClaim) <==> open && claims && times < 3 && half >= 100)
            && (Because(d, DrawAgreement) <==>
                open && !(claims && (times >= 3 || half >= 100)) && DrawAgreed(g, s, head))
            && (d == None <==> open && !(claims && (times >= 3 || half >= 100)) && !DrawAgreed(g, s, head))
            && (Because(d, ThreefoldClaim) || Because(d, FiftyMoveClaim) || Because(d, DrawAgreement) ==>
                d.value.winner == None)
  {
  }

  /** Whoever wins did not move twice, did not resign alone, and is not the one mated. */
  lemma WinnerDeservesIt(g: Game, r: Rules, s: set<RecordId>, c: seq<RecordId>, at: seq<Position>, w: Color)
    requires Complete(g, r, s, c, at) && Verdict(g, r, s).Some? && Verdict(g, r, s).value.winner == Some(w)
    ensures !MovedTwice(g, s, w)
    ensures GaveUp(g, s, w) ==> MovedTwice(g, s, w.Other())
    ensures MovedTwice(g, s, w.Other()) || GaveUp(g, s, w.Other())
            || (r.checkmate(at[|c|]) && r.turn(at[|c|]) == w.Other())
  {
    ForfeitMeans(g, r, s);
    ResignationMeans(g, r, s);
    BoardMeans(g, r, s, c, at);
    StatementMeans(g, r, s, c, at);
    assert w.Other().Other() == w;
  }
}
