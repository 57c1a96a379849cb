/** Chess as a transition system, and the replay of a chain of moves (common/src/project.rs).

    Everything here depends on the SET of record ids alone: content ids determine statements. */
module Chess {
  import opened Types
  import opened Finite

  type Position = nat

  const THREEFOLD: nat := 3
  const FIVEFOLD: nat := 5
  const FIFTY_MOVE_HALFMOVES: nat := 100
  const SEVENTY_FIVE_MOVE_HALFMOVES: nat := 150

  /** The rules of chess, as far as the projection asks. `key` is the repetition key. */
  datatype Rules = Rules(start: Position,
                         step: (Position, Uci) -> Option<Position>,
                         key: Position -> nat,
                         halfmoves: Position -> nat,
                         turn: Position -> Color,
                         checkmate: Position -> bool,
                         stalemate: Position -> bool,
                         insufficient: Position -> bool)
  {
    /** White starts, moves alternate, and nobody moves out of mate or stalemate. */
    ghost predicate Fair() {
      && turn(start) == White
      && (forall p, u :: step(p, u).Some? ==> turn(step(p, u).value) == turn(p).Other())
      && (forall p, u :: checkmate(p) || stalemate(p) ==> step(p, u).None?)
    }
  }

  type Chain = seq<RecordId>

  function Head(g: Game, chain: Chain): RecordId {
    if chain == [] then g.genesis else chain[|chain| - 1]
  }

  /** The position after replaying `chain`. */
  function Replay(g: Game, r: Rules, chain: Chain): Position {
    if chain == [] then r.start else
      var before := Replay(g, r, chain[..|chain| - 1]);
      var body := g.says(chain[|chain| - 1]).body;
      if body.Move? && r.step(before, body.uci).Some? then r.step(before, body.uci).value else before
  }

  /** A legal, correctly parented continuation signed by the player to move. */
  predicate Continues(g: Game, r: Rules, chain: Chain, id: RecordId) {
    var say := g.says(id);
    && say.body.Move?
    && say.body.ply == |chain| + 1
    && say.body.parent == Head(g, chain)
    && say.signer == g.params.KeyOf(ColorAtPly(|chain| + 1))
    && r.step(Replay(g, r, chain), say.body.uci).Some?
  }

  /** A legal move in `pos` by the player to move, at the next ply, naming the last id of `c`. */
  ghost predicate Follows(g: Game, r: Rules, c: seq<RecordId>, pos: Position, id: RecordId) {
    var say := g.says(id);
    && say.body.Move?
    && say.body.ply == |c| + 1
    && say.body.parent == (if |c| == 0 then g.genesis else c[|c| - 1])
    && say.signer == (if |c| % 2 == 0 then g.params.white else g.params.black)
    && r.step(pos, say.body.uci).Some?
  }

  /** On the position a chain leads to, that is what continuing it means. */
  lemma FollowsIsContinues(g: Game, r: Rules, c: Chain, id: RecordId)
    ensures Follows(g, r, c, Replay(g, r, c), id) <==> Continues(g, r, c, id)
  {
  }

  ghost function Candidates(g: Game, r: Rules, s: set<RecordId>, chain: Chain): set<RecordId> {
    set id | id in s && Continues(g, r, chain, id)
  }

  /** The points of the replay, start included, that share a repetition key. */
  ghost function Recurrences(g: Game, r: Rules, chain: Chain, key: nat): set<nat> {
    set i | 0 <= i <= |chain| && r.key(Replay(g, r, chain[..i])) == key
  }

  ghost function Occurrences(g: Game, r: Rules, chain: Chain): nat {
    |Recurrences(g, r, chain, r.key(Replay(g, r, chain)))|
  }

  /** FIDE Laws of Chess 9.6.1 and 9.6.2: the game ends on reaching the position. */
  ghost predicate Halts(g: Game, r: Rules, chain: Chain) {
    chain != [] && (Occurrences(g, r, chain) >= FIVEFOLD
                    || r.halfmoves(Replay(g, r, chain)) >= SEVENTY_FIVE_MOVE_HALFMOVES)
  }

  predicate Before(stop: Option<nat>, ply: nat) {
    stop.None? || ply < stop.value
  }

  /** A parent-linked chain of legal moves drawn from `s`, short of the fraud ply, no proper
      prefix of which already ended the game. */
  ghost predicate Legal(g: Game, r: Rules, s: set<RecordId>, stop: Option<nat>, chain: Chain) {
    chain == [] ||
    (var n := |chain| - 1;
     && Legal(g, r, s, stop, chain[..n])
     && !Halts(g, r, chain[..n])
     && Before(stop, n + 1)
     && chain[n] in Candidates(g, r, s, chain[..n]))
  }

  /** There is never a choice of two continuations before the stop. */
  ghost predicate Unambiguous(g: Game, r: Rules, s: set<RecordId>, stop: Option<nat>) {
    forall chain | Before(stop, |chain| + 1) :: |Candidates(g, r, s, chain)| <= 1
  }

  /** The walk's loop from a chain already accepted. */
  ghost function Grow(g: Game, r: Rules, s: set<RecordId>, stop: Option<nat>, chain: Chain): Chain
    requires |chain| <= 0xFFFF
    decreases 0xFFFF - |chain|
  {
    if Halts(g, r, chain) || !Before(stop, |chain| + 1) || |Candidates(g, r, s, chain)| != 1 then chain else
      var next :| next in Candidates(g, r, s, chain);
      Grow(g, r, s, stop, chain + [next])
  }

  ghost function Walked(g: Game, r: Rules, s: set<RecordId>, stop: Option<nat>): Chain {
    Grow(g, r, s, stop, [])
  }

  ghost predicate Stuck(g: Game, r: Rules, s: set<RecordId>, stop: Option<nat>, chain: Chain) {
    Halts(g, r, chain) || !Before(stop, |chain| + 1) || |Candidates(g, r, s, chain)| != 1
  }

  lemma {:induction false} GrowIsLegal(g: Game, r: Rules, s: set<RecordId>, stop: Option<nat>, chain: Chain)
    requires |chain| <= 0xFFFF && Legal(g, r, s, stop, chain)
    ensures var end := Grow(g, r, s, stop, chain);
            Legal(g, r, s, stop, end) && Stuck(g, r, s, stop, end) && chain <= end
    decreases 0xFFFF - |chain|
  {
    if !Stuck(g, r, s, stop, chain) {
      var next :| next in Candidates(g, r, s, chain)
                  && Grow(g, r, s, stop, chain) == Grow(g, r, s, stop, chain + [next]);
      assert (chain + [next])[..|chain|] == chain;
      GrowIsLegal(g, r, s, stop, chain + [next]);
    }
  }

  lemma {:induction false} LegalPrefix(g: Game, r: Rules, s: set<RecordId>, stop: Option<nat>, chain: Chain, n: nat)
    requires Legal(g, r, s, stop, chain) && n <= |chain|
    ensures Legal(g, r, s, stop, chain[..n])
    ensures n < |chain| ==>
      && Before(stop, n + 1)
      && !Halts(g, r, chain[..n]) && chain[n] in Candidates(g, r, s, chain[..n])
    decreases |chain|
  {
    if n == |chain| {
      assert chain[..n] == chain;
    } else {
      var k := |chain| - 1;
      if n < k {
        LegalPrefix(g, r, s, stop, chain[..k], n);
        assert chain[..k][..n] == chain[..n];
      }
    }
  }

  lemma WalkEnds(g: Game, r: Rules, s: set<RecordId>, stop: Option<nat>)
    requires Unambiguous(g, r, s, stop)
    ensures var end := Walked(g, r, s, stop);
            && Legal(g, r, s, stop, end)
            && (Halts(g, r, end) || !Before(stop, |end| + 1) || Candidates(g, r, s, end) == {})
  {
    GrowIsLegal(g, r, s, stop, []);
    var end := Walked(g, r, s, stop);
    assert Before(stop, |end| + 1) ==> |Candidates(g, r, s, end)| <= 1;
  }

  /** The walk is THE maximal chain: where continuations are unambiguous, every legal
      parent-linked chain is a prefix of it. */
  lemma {:induction false} WalkIsMaximal(g: Game, r: Rules, s: set<RecordId>, stop: Option<nat>, chain: Chain)
    requires Unambiguous(g, r, s, stop) && Legal(g, r, s, stop, chain)
    ensures chain <= Walked(g, r, s, stop)
    decreases |chain|
  {
    if chain != [] {
      var n := |chain| - 1;
      WalkIsMaximal(g, r, s, stop, chain[..n]);
      WalkEnds(g, r, s, stop);
      SameStep(g, r, s, stop, Walked(g, r, s, stop), chain);
    }
  }

  lemma SameStep(g: Game, r: Rules, s: set<RecordId>, stop: Option<nat>, end: Chain, chain: Chain)
    requires Unambiguous(g, r, s, stop) && Legal(g, r, s, stop, chain) && Legal(g, r, s, stop, end)
    requires chain != [] && chain[..|chain| - 1] <= end
    requires Halts(g, r, end) || !Before(stop, |end| + 1) || Candidates(g, r, s, end) == {}
    ensures chain <= end
  {
    var n := |chain| - 1;
    var init, last := chain[..n], chain[n];
    SplitLast(chain);
    PrefixIsTake(init, end);
    assert Before(stop, n + 1) && !Halts(g, r, init) && last in Candidates(g, r, s, init);
    if |end| > n {
      NextIsForced(g, r, s, stop, end, n, init, last);
    }
  }

  lemma NextIsForced(g: Game, r: Rules, s: set<RecordId>, stop: Option<nat>, end: Chain, n: nat,
                     init: Chain, last: RecordId)
    requires Unambiguous(g, r, s, stop) && Legal(g, r, s, stop, end)
    requires n < |end| && init == end[..n] && last in Candidates(g, r, s, init)
    ensures init + [last] <= end
  {
    LegalPrefix(g, r, s, stop, end, n);
    assert |init| == n;
    AtMostOne(Candidates(g, r, s, init), end[n], last);
  }

  /** A legal chain stays legal in a larger set, up to that set's own stop. */
  lemma {:induction false} LegalInMore(g: Game, r: Rules, s: set<RecordId>, stop: Option<nat>,
                                       t: set<RecordId>, stop': Option<nat>, chain: Chain)
    requires Legal(g, r, s, stop, chain) && (chain != [] ==> Before(stop', |chain|))
    requires forall id | id in chain :: id in t
    ensures Legal(g, r, t, stop', chain)
    decreases |chain|
  {
    if chain != [] {
      var n := |chain| - 1;
      LegalInMore(g, r, s, stop, t, stop', chain[..n]);
    }
  }

  lemma StepFlips(r: Rules, p: Position, u: Uci)
    requires r.Fair() && r.step(p, u).Some?
    ensures r.turn(r.step(p, u).value) == r.turn(p).Other()
  {
  }

  /** On a chain of legal moves the side to move is fixed by its length. */
  lemma {:induction false} TurnByLength(g: Game, r: Rules, s: set<RecordId>, stop: Option<nat>, chain: Chain)
    requires r.Fair() && Legal(g, r, s, stop, chain)
    ensures r.turn(Replay(g, r, chain)) == ColorAtPly(|chain| + 1)
  {
    if chain != [] {
      var n := |chain| - 1;
      TurnByLength(g, r, s, stop, chain[..n]);
      assert Continues(g, r, chain[..n], chain[n]);
      StepFlips(r, Replay(g, r, chain[..n]), g.says(chain[n]).body.uci);
    }
  }

  lemma {:induction false} LegalMembers(g: Game, r: Rules, s: set<RecordId>, stop: Option<nat>, chain: Chain)
    requires Legal(g, r, s, stop, chain)
    ensures forall i | 0 <= i < |chain| ::
              && chain[i] in s && g.says(chain[i]).body.Move? && g.says(chain[i]).body.ply == i + 1
              && g.says(chain[i]).signer == g.params.KeyOf(ColorAtPly(i + 1))
  {
    forall i | 0 <= i < |chain|
      ensures chain[i] in s && g.says(chain[i]).body.Move? && g.says(chain[i]).body.ply == i + 1
      ensures g.says(chain[i]).signer == g.params.KeyOf(ColorAtPly(i + 1))
    {
      LegalPrefix(g, r, s, stop, chain, i);
    }
  }

  lemma RecurrencesGrow(g: Game, r: Rules, chain: Chain, id: RecordId, key: nat)
    ensures Recurrences(g, r, chain + [id], key) == Recurrences(g, r, chain, key) +
            (if r.key(Replay(g, r, chain + [id])) == key then {|chain| + 1} else {})
  {
    var longer := chain + [id];
    assert longer[..|longer|] == longer;
    forall i | 0 <= i <= |chain| ensures longer[..i] == chain[..i] {
    }
  }
}
