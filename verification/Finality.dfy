/** What merging and eviction can and cannot do to a game (common/src/state.rs with
    common/src/project.rs). */
module Finality {
  import opened Types
  import opened Finite
  import opened TopK
  import opened State
  import opened Algebra
  import opened Chess
  import opened Project

  // ---- One chain ----

  lemma FraudStops(g: Game, s: set<RecordId>, c: Color, p: nat)
    requires |MovesAt(g, s, g.params.KeyOf(c), p)| >= 2 && p <= 0xFFFF
    ensures p in FraudPlies(g, s) && !Before(StopPly(g, s), p)
    ensures exists d :: DoubledAt(g, s, d, p)
  {
    var d := g.params.ColorOf(g.params.KeyOf(c)).value;
    assert DoubledAt(g, s, d, p);
  }

  /** The walk never has to choose: two continuations would be a double-sign, and it stops first. */
  lemma NeverAChoice(g: Game, r: Rules, s: set<RecordId>)
    ensures Unambiguous(g, r, s, StopPly(g, s))
  {
    forall chain | Before(StopPly(g, s), |chain| + 1) ensures |Candidates(g, r, s, chain)| <= 1 {
      var found, c := Candidates(g, r, s, chain), ColorAtPly(|chain| + 1);
      if |found| >= 2 {
        var id :| id in found;
        assert found <= MovesAt(g, s, g.params.KeyOf(c), |chain| + 1);
        SubsetSize(found, MovesAt(g, s, g.params.KeyOf(c), |chain| + 1));
        FraudStops(g, s, c, |chain| + 1);
      }
    }
  }

  /** Every legal parent-linked chain short of the first fraud ply is a prefix of the accepted one,
      which ends only at the end of the game, at the fraud, or where nobody has moved. */
  lemma ChainIsMaximal(g: Game, r: Rules, s: set<RecordId>, chain: Chain)
    requires Legal(g, r, s, StopPly(g, s), chain)
    ensures chain <= ChainOf(g, r, s)
  {
    NeverAChoice(g, r, s);
    WalkIsMaximal(g, r, s, StopPly(g, s), chain);
  }

  lemma ChainEnds(g: Game, r: Rules, s: set<RecordId>)
    ensures var end := ChainOf(g, r, s);
            && Legal(g, r, s, StopPly(g, s), end)
            && (Halts(g, r, end) || !Before(StopPly(g, s), |end| + 1) || Candidates(g, r, s, end) == {})
  {
    NeverAChoice(g, r, s);
    WalkEnds(g, r, s, StopPly(g, s));
  }

  /** On verified plies the half-move counter stays far inside a `u16`, and the side to move is the
      one the next ply belongs to. */
  lemma ChainIsShort(g: Game, r: Rules, s: set<RecordId>)
    requires r.Fair()
    requires forall id | id in s && g.says(id).body.Move? :: g.says(id).body.ply <= MAX_PLY
    ensures |ChainOf(g, r, s)| + 1 <= MAX_PLY + 1
    ensures r.turn(Replay(g, r, ChainOf(g, r, s))) == ColorAtPly(|ChainOf(g, r, s)| + 1)
  {
    ChainEnds(g, r, s);
    TurnByLength(g, r, s, StopPly(g, s), ChainOf(g, r, s));
    LegalMembers(g, r, s, StopPly(g, s), ChainOf(g, r, s));
    var chain := ChainOf(g, r, s);
    if chain != [] {
      assert g.says(chain[|chain| - 1]).body.ply == |chain|;
    }
  }

  /** The game ends at the FIRST position that ends it: no proper prefix of the chain had reached
      five occurrences or 150 halfmoves, nor was one mate or stalemate. */
  lemma NoPrefixWasOver(g: Game, r: Rules, s: set<RecordId>, n: nat)
    requires r.Fair() && n < |ChainOf(g, r, s)|
    ensures !Over(g, r, ChainOf(g, r, s)[..n])
  {
    ChainEnds(g, r, s);
    LegalPrefix(g, r, s, StopPly(g, s), ChainOf(g, r, s), n);
  }

  // ---- Eviction keeps the proof and the game ----

  lemma MovesAreAGroup(g: Game, s: set<RecordId>, k: Key, p: Ply)
    ensures MovesAt(g, s, k, p) == InGroup(g, s, Group(k, KMove, p))
  {
  }

  lemma EvictionKeepsDoubles(g: Game, s: set<RecordId>, c: Color, p: Ply)
    ensures DoubledAt(g, Top(g, s), c, p) <==> DoubledAt(g, s, c, p)
  {
    var k := g.params.KeyOf(c);
    MovesAreAGroup(g, s, k, p);
    MovesAreAGroup(g, Top(g, s), k, p);
    GroupFloor(g, s, Group(k, KMove, p));
  }

  /** Eviction neither dissolves nor invents a fraud proof. */
  lemma EvictionKeepsFraud(g: Game, s: set<RecordId>)
    ensures FraudPlies(g, Top(g, s)) == FraudPlies(g, s)
    ensures forall c :: Blamed(g, Top(g, s), c) <==> Blamed(g, s, c)
    ensures FraudOf(g, Top(g, s)) == FraudOf(g, s) && StopPly(g, Top(g, s)) == StopPly(g, s)
  {
    forall c: Color, p: Ply ensures DoubledAt(g, Top(g, s), c, p) <==> DoubledAt(g, s, c, p) {
      EvictionKeepsDoubles(g, s, c, p);
    }
    assert FraudPlies(g, Top(g, s)) == FraudPlies(g, s);
  }

  /** A chain move is alone in its group, so it survives. */
  lemma ChainSurvives(g: Game, r: Rules, s: set<RecordId>, chain: Chain)
    requires Legal(g, r, s, StopPly(g, s), chain)
    ensures forall id | id in chain :: id in Top(g, s)
  {
    forall i | 0 <= i < |chain| ensures chain[i] in Top(g, s) {
      ChainMoveSurvives(g, r, s, chain, i);
    }
  }

  lemma ChainMoveSurvives(g: Game, r: Rules, s: set<RecordId>, chain: Chain, i: nat)
    requires Legal(g, r, s, StopPly(g, s), chain) && i < |chain|
    ensures chain[i] in Top(g, s)
  {
    LegalMembers(g, r, s, StopPly(g, s), chain);
    LegalPrefix(g, r, s, StopPly(g, s), chain, i);
    var id, k := chain[i], g.params.KeyOf(ColorAtPly(i + 1));
    if !Survives(g, s, id) {
      var low := EvictedHasRivals(g, s, id);
      assert low <= MovesAt(g, s, k, i + 1);
      SubsetSize(low, MovesAt(g, s, k, i + 1));
      FraudStops(g, s, ColorAtPly(i + 1), i + 1);
    }
  }

  /** The game read from an evicted state is the game read from the whole one. */
  lemma EvictionKeepsChain(g: Game, r: Rules, s: set<RecordId>)
    ensures ChainOf(g, r, Top(g, s)) == ChainOf(g, r, s)
  {
    var stop := StopPly(g, s);
    var whole, kept := ChainOf(g, r, s), ChainOf(g, r, Top(g, s));
    EvictionKeepsFraud(g, s);
    ChainEnds(g, r, s);
    ChainEnds(g, r, Top(g, s));
    ChainSurvives(g, r, s, whole);
    ShortOfStop(g, r, s, stop, whole);
    LegalInMore(g, r, s, stop, Top(g, s), stop, whole);
    ChainIsMaximal(g, r, Top(g, s), whole);
    ShortOfStop(g, r, Top(g, s), stop, kept);
    LegalMembers(g, r, Top(g, s), stop, kept);
    LegalInMore(g, r, Top(g, s), stop, s, stop, kept);
    ChainIsMaximal(g, r, s, kept);
    PrefixIsTake(whole, kept);
  }

  lemma ShortOfStop(g: Game, r: Rules, s: set<RecordId>, stop: Option<nat>, chain: Chain)
    requires Legal(g, r, s, stop, chain)
    ensures chain != [] ==> Before(stop, |chain|)
  {
  }

  // ---- Records only accumulate ----

  /** More records can only add to a fraud. */
  lemma FraudGrows(g: Game, s: set<RecordId>, t: set<RecordId>)
    requires s <= t
    ensures FraudPlies(g, s) <= FraudPlies(g, t)
    ensures forall c | Blamed(g, s, c) :: Blamed(g, t, c)
  {
    forall c: Color, p: Ply | DoubledAt(g, s, c, p) ensures DoubledAt(g, t, c, p) {
      SubsetSize(MovesAt(g, s, g.params.KeyOf(c), p), MovesAt(g, t, g.params.KeyOf(c), p));
    }
  }

  /** What of a chain lies below a stop. */
  ghost function Cut(chain: Chain, stop: Option<nat>): Chain {
    if stop.None? || |chain| < stop.value then chain
    else if stop.value == 0 then [] else chain[..stop.value - 1]
  }

  lemma CutIsPrefix(g: Game, r: Rules, s: set<RecordId>, t: set<RecordId>)
    requires s <= t
    ensures Cut(ChainOf(g, r, s), StopPly(g, t)) <= ChainOf(g, r, t)
  {
    var chain, stop := ChainOf(g, r, s), StopPly(g, t);
    var cut := Cut(chain, stop);
    ChainEnds(g, r, s);
    LegalPrefix(g, r, s, StopPly(g, s), chain, |cut|);
    assert cut == chain[..|cut|];
    LegalMembers(g, r, s, StopPly(g, s), cut);
    LegalInMore(g, r, s, StopPly(g, s), t, stop, cut);
    ChainIsMaximal(g, r, t, cut);
  }

  /** `t` is what `s` becomes after further merges. */
  ghost predicate Later(g: Game, s: set<RecordId>, t: set<RecordId>) {
    t == s || exists x :: t == Top(g, s + x)
  }

  lemma LaterTransitive(g: Game, s: set<RecordId>, t: set<RecordId>, u: set<RecordId>)
    requires Later(g, s, t) && Later(g, t, u)
    ensures Later(g, s, u)
  {
    if t != s && u != t {
      var x :| t == Top(g, s + x);
      var y :| u == Top(g, t + y);
      TopOfUnion(g, s + x, y);
      assert s + x + y == s + (x + y);
    }
  }

  /** One merge, whatever the base holds and whatever arrives. */
  lemma MergedIsLater(g: Game, m: Records, other: Records)
    requires g.Sound() && Keyed(g, m) && Keyed(g, other)
    ensures Later(g, m.Keys, Merged(g, m, other).Keys) && Keyed(g, Merged(g, m, other))
  {
    var joined := AbsorbedState(g, m, other);
    var x := joined.Keys - m.Keys;
    assert joined.Keys == m.Keys + x;
    EvictedIsTop(g, joined);
  }

  /** One delta, whatever the base holds and whatever it lists. */
  lemma AppliedIsLater(g: Game, m: Records, delta: seq<Record>)
    requires g.Sound() && Keyed(g, m)
    ensures Later(g, m.Keys, Applied(g, m, delta).Keys) && Keyed(g, Applied(g, m, delta))
  {
    var full := AbsorbedAll(g, m, delta);
    AbsorbingOnlyAdds(g, m, delta);
    var x := full.Keys - m.Keys;
    assert full.Keys == m.Keys + x;
    EvictedIsTop(g, full);
  }

  lemma {:induction false} AbsorbingOnlyAdds(g: Game, m: Records, delta: seq<Record>)
    requires Keyed(g, m)
    ensures Keyed(g, AbsorbedAll(g, m, delta)) && m.Keys <= AbsorbedAll(g, m, delta).Keys
  {
    if delta != [] {
      AbsorbingOnlyAdds(g, m, delta[..|delta| - 1]);
    }
  }

  /** One thing a peer takes in. */
  datatype Intake = Merging(other: Records) | Applying(delta: seq<Record>)

  ghost function Taken(g: Game, m: Records, a: Intake): Records {
    match a
    case Merging(other) => Merged(g, m, other)
    case Applying(delta) => Applied(g, m, delta)
  }

  ghost function TakenAll(g: Game, m: Records, intakes: seq<Intake>): Records {
    if intakes == [] then m else
      Taken(g, TakenAll(g, m, intakes[..|intakes| - 1]), intakes[|intakes| - 1])
  }

  /** Any run of merges and deltas, of anything at all. */
  lemma {:induction false} RunIsLater(g: Game, m: Records, intakes: seq<Intake>)
    requires g.Sound() && Keyed(g, m)
    requires forall i | 0 <= i < |intakes| && intakes[i].Merging? :: Keyed(g, intakes[i].other)
    ensures Later(g, m.Keys, TakenAll(g, m, intakes).Keys) && Keyed(g, TakenAll(g, m, intakes))
  {
    if intakes != [] {
      var n := |intakes| - 1;
      var before := TakenAll(g, m, intakes[..n]);
      RunIsLater(g, m, intakes[..n]);
      match intakes[n] {
        case Merging(other) => MergedIsLater(g, before, other);
        case Applying(delta) => AppliedIsLater(g, before, delta);
      }
      LaterTransitive(g, m.Keys, before.Keys, TakenAll(g, m, intakes).Keys);
    }
  }

  /** Along any run of merges and deltas a proven fraud stays proven, the blamed only grow in number, and the
      first fraud ply only falls. */
  lemma FraudIsPermanent(g: Game, s: set<RecordId>, t: set<RecordId>)
    requires Later(g, s, t)
    ensures FraudPlies(g, s) <= FraudPlies(g, t)
    ensures forall c | Blamed(g, s, c) :: Blamed(g, t, c)
    ensures StopPly(g, s).Some? ==> StopPly(g, t).Some? && StopPly(g, t).value <= StopPly(g, s).value
  {
    if t != s {
      var x :| t == Top(g, s + x);
      FraudGrows(g, s, s + x);
      EvictionKeepsFraud(g, s + x);
    }
  }

  /** Only a fraud rewinds: without one the chain only grows; with one, what lies below the first
      fraud ply still stands. */
  lemma OnlyFraudRewinds(g: Game, r: Rules, s: set<RecordId>, t: set<RecordId>)
    requires Later(g, s, t)
    ensures Cut(ChainOf(g, r, s), StopPly(g, t)) <= ChainOf(g, r, t)
    ensures FraudOf(g, t).None? ==> ChainOf(g, r, s) <= ChainOf(g, r, t)
  {
    if t == s {
      CutIsPrefix(g, r, s, s);
    } else {
      var x :| t == Top(g, s + x);
      CutIsPrefix(g, r, s, s + x);
      EvictionKeepsFraud(g, s + x);
      EvictionKeepsChain(g, r, s + x);
    }
  }

  // ---- Finality ----

  /** No move can follow this chain. */
  ghost predicate Over(g: Game, r: Rules, chain: Chain) {
    var pos := Replay(g, r, chain);
    r.checkmate(pos) || r.stalemate(pos) || Halts(g, r, chain)
  }

  lemma OverChainStays(g: Game, r: Rules, s: set<RecordId>, t: set<RecordId>)
    requires r.Fair() && Later(g, s, t) && FraudOf(g, t).None? && Over(g, r, ChainOf(g, r, s))
    ensures ChainOf(g, r, t) == ChainOf(g, r, s)
  {
    var short, long := ChainOf(g, r, s), ChainOf(g, r, t);
    OnlyFraudRewinds(g, r, s, t);
    PrefixIsTake(short, long);
    if |short| < |long| {
      ChainEnds(g, r, t);
      LegalPrefix(g, r, t, StopPly(g, t), long, |short|);
    }
  }

  lemma ResignationsAccumulate(g: Game, s: set<RecordId>, t: set<RecordId>, c: Color)
    requires Later(g, s, t) && Resigned(g, s, c)
    ensures Resigned(g, t, c)
  {
    if t != s {
      var x :| t == Top(g, s + x);
      var id :| id in s && g.says(id).body.Resign? && g.params.ColorOf(g.says(id).signer) == Some(c);
      assert id in t;
    }
  }

  predicate IsForfeit(d: Option<Decision>) {
    d.Some? && d.value.reason == DoubleSignForfeit
  }

  predicate IsResignation(d: Option<Decision>) {
    d.Some? && (d.value.reason == Resignation || d.value.reason == MutualResignation)
  }

  /** A forfeit stays a forfeit, and a sole offender's opponent never becomes the loser. */
  lemma ForfeitIsFinal(g: Game, r: Rules, s: set<RecordId>, t: set<RecordId>)
    requires Later(g, s, t) && IsForfeit(Verdict(g, r, s))
    ensures IsForfeit(Verdict(g, r, t))
    ensures Verdict(g, r, t).value.winner.Some? ==> Verdict(g, r, t).value.winner == Verdict(g, r, s).value.winner
  {
    ConductComesFirst(g, r, s);
    ConductComesFirst(g, r, t);
    WinnerIsKept(g, s, t);
  }

  lemma WinnerIsKept(g: Game, s: set<RecordId>, t: set<RecordId>)
    requires Later(g, s, t) && FraudOf(g, s).Some?
    ensures FraudOf(g, t).Some?
    ensures FraudOf(g, t).value.winner.Some? ==> FraudOf(g, t).value.winner == FraudOf(g, s).value.winner
  {
    FraudIsPermanent(g, s, t);
    SomeoneIsBlamed(g, s);
    SomeoneIsBlamed(g, t);
  }

  lemma SomeoneIsBlamed(g: Game, s: set<RecordId>)
    ensures FraudOf(g, s).Some? <==> Blamed(g, s, White) || Blamed(g, s, Black)
  {
    if FraudPlies(g, s) != {} {
      var p :| p in FraudPlies(g, s);
    }
    forall c | Blamed(g, s, c) ensures FraudPlies(g, s) != {} {
      var p: Ply :| DoubledAt(g, s, c, p);
      assert p in FraudPlies(g, s);
    }
  }

  /** A resignation later becomes only itself, mutual resignation, or a forfeit. */
  lemma ResignationIsFinal(g: Game, r: Rules, s: set<RecordId>, t: set<RecordId>)
    requires Later(g, s, t) && IsResignation(Verdict(g, r, s))
    ensures IsForfeit(Verdict(g, r, t))
            || Verdict(g, r, t) == Some(Decision(None, MutualResignation))
            || Verdict(g, r, t) == Verdict(g, r, s)
  {
    ConductComesFirst(g, r, s);
    if Resigned(g, s, White) {
      ResignationsAccumulate(g, s, t, White);
    }
    if Resigned(g, s, Black) {
      ResignationsAccumulate(g, s, t, Black);
    }
  }

  lemma ConductComesFirst(g: Game, r: Rules, s: set<RecordId>)
    ensures IsResignation(Verdict(g, r, s)) ==> Resigned(g, s, White) || Resigned(g, s, Black)
    ensures IsForfeit(Verdict(g, r, s)) <==> FraudOf(g, s).Some?
    ensures FraudOf(g, s).Some? ==> Verdict(g, r, s).value.winner == FraudOf(g, s).value.winner
  {
  }

  /** Checkmate, stalemate and automatic draws are final up to resignation and forfeit, and the
      game record itself changes only by forfeit. */
  lemma BoardResultIsFinal(g: Game, r: Rules, s: set<RecordId>, t: set<RecordId>)
    requires r.Fair() && Later(g, s, t) && Verdict(g, r, s).Some?
    requires Verdict(g, r, s).value.reason in {Checkmate, Stalemate, AutomaticDraw}
    ensures IsForfeit(Verdict(g, r, t)) || ChainOf(g, r, t) == ChainOf(g, r, s)
    ensures IsForfeit(Verdict(g, r, t)) || IsResignation(Verdict(g, r, t)) || Verdict(g, r, t) == Verdict(g, r, s)
  {
    if FraudOf(g, t).None? {
      OverChainStays(g, r, s, t);
    }
  }

  /** A draw by insufficient material does not stop the walk. Short of a resignation or a forfeit, it
      stands whenever the chain does, and the chain moves on exactly when someone continues it
      before an automatic draw has stopped it. */
  lemma InsufficientMaterialStandsIff(g: Game, r: Rules, s: set<RecordId>, x: set<RecordId>)
    requires r.Fair() && Verdict(g, r, s) == Some(Decision(None, InsufficientMaterial))
    requires FraudPlies(g, s + x) == {} && forall id | id in x :: !g.says(id).body.Resign?
    ensures var chain, t := ChainOf(g, r, s), Top(g, s + x);
            && (ChainOf(g, r, t) == chain <==>
                Halts(g, r, chain) || forall id | id in x :: !Continues(g, r, chain, id))
            && (ChainOf(g, r, t) == chain ==> Verdict(g, r, t) == Verdict(g, r, s))
  {
    var chain, t := ChainOf(g, r, s), Top(g, s + x);
    InsufficientDecides(g, r, s);
    ChainStillDecides(g, r, s, x);
    if Halts(g, r, chain) {
      assert Later(g, s, t);
      OverChainStays(g, r, s, t);
    } else {
      ChainAdvancesIff(g, r, s, x);
    }
  }

  lemma InsufficientDecides(g: Game, r: Rules, s: set<RecordId>)
    requires Verdict(g, r, s) == Some(Decision(None, InsufficientMaterial))
    ensures !Resigned(g, s, White) && !Resigned(g, s, Black)
    ensures var chain := ChainOf(g, r, s);
            BoardResult(r, Replay(g, r, chain), Halts(g, r, chain)) == Verdict(g, r, s)
  {
  }

  // ---- A merge that does not change the number of records ----

  ghost function Outside(g: Game, s: set<RecordId>, group: Group): set<RecordId> {
    set id | id in s && g.GroupOf(id) != Some(group)
  }

  /** A record competes with its own group only. */
  lemma OthersUntouched(g: Game, s: set<RecordId>, x: RecordId, id: RecordId)
    requires Top(g, s) == s && id in s
    requires g.GroupOf(x).None? || g.GroupOf(id) != g.GroupOf(x)
    ensures id in Top(g, s + {x})
  {
    assert Survives(g, s, id);
    if g.GroupOf(id).Some? {
      assert Rivals(g, s + {x}, id) == Rivals(g, s, id);
    }
  }

  lemma SplitByGroup(g: Game, s: set<RecordId>, group: Group)
    ensures |s| == |Outside(g, s, group)| + |InGroup(g, s, group)|
  {
    assert s == Outside(g, s, group) + InGroup(g, s, group);
  }

  /** One record added to a within-K set: other groups are untouched, its own grows or was full. */
  lemma AddOne(g: Game, s: set<RecordId>, x: RecordId)
    requires Top(g, s) == s && x !in s && g.GroupOf(x).Some?
    ensures var t, group := Top(g, s + {x}), g.GroupOf(x).value;
            && |s| <= |t| && Outside(g, t, group) == Outside(g, s, group)
            && (|s| == |t| ==> |InGroup(g, s, group)| == group.kind.K() == |InGroup(g, t, group)|)
  {
    var t, group := Top(g, s + {x}), g.GroupOf(x).value;
    GroupFloor(g, s, group);
    GroupFloor(g, s + {x}, group);
    assert InGroup(g, s + {x}, group) == InGroup(g, s, group) + {x};
    forall id | id in Outside(g, s, group) ensures id in t {
      OthersUntouched(g, s, x, id);
    }
    assert Outside(g, t, group) == Outside(g, s, group);
    assert |InGroup(g, s + {x}, group)| == |InGroup(g, s, group)| + 1;
    SplitByGroup(g, s, group);
    SplitByGroup(g, t, group);
  }

  lemma AddUngrouped(g: Game, s: set<RecordId>, x: RecordId)
    requires Top(g, s) == s && x !in s && g.GroupOf(x).None?
    ensures Top(g, s + {x}) == s + {x}
  {
    forall id | id in s ensures id in Top(g, s + {x}) {
      OthersUntouched(g, s, x, id);
    }
  }

  /** Same chain, same fraud, same resignations. */
  ghost predicate SameGame(g: Game, r: Rules, s: set<RecordId>, t: set<RecordId>) {
    && ChainOf(g, r, s) == ChainOf(g, r, t) && FraudOf(g, s) == FraudOf(g, t)
    && forall c :: Resigned(g, s, c) <==> Resigned(g, t, c)
  }

  /** Swapping members of a full group changes nothing but draws: a full move group was already a
      fraud proof, and the chain uses neither of its moves. */
  lemma FullGroupSwap(g: Game, r: Rules, s: set<RecordId>, t: set<RecordId>, group: Group)
    requires Outside(g, s, group) == Outside(g, t, group)
    requires |InGroup(g, s, group)| == |InGroup(g, t, group)| == group.kind.K()
    ensures SameGame(g, r, s, t)
  {
    forall c: Color, p: Ply ensures DoubledAt(g, s, c, p) <==> DoubledAt(g, t, c, p) {
      SameCount(g, s, t, group, g.params.KeyOf(c), p);
    }
    assert FraudPlies(g, s) == FraudPlies(g, t);
    forall c ensures Resigned(g, s, c) <==> Resigned(g, t, c) {
      SameResigned(g, s, t, group, c);
      SameResigned(g, t, s, group, c);
    }
    SwapKeepsChain(g, r, s, t, group);
    SwapKeepsChain(g, r, t, s, group);
    PrefixIsTake(ChainOf(g, r, s), ChainOf(g, r, t));
  }

  lemma SameCount(g: Game, s: set<RecordId>, t: set<RecordId>, group: Group, k: Key, p: Ply)
    requires Outside(g, s, group) == Outside(g, t, group)
    requires |InGroup(g, s, group)| == |InGroup(g, t, group)|
    ensures |MovesAt(g, s, k, p)| == |MovesAt(g, t, k, p)|
  {
    MovesAreAGroup(g, s, k, p);
    MovesAreAGroup(g, t, k, p);
    if group != Group.Group(k, KMove, p) {
      forall id | IsMoveBy(g, id, k, p) ensures id in s <==> id in t {
        assert id in Outside(g, s, group) <==> id in Outside(g, t, group);
      }
      assert MovesAt(g, s, k, p) == MovesAt(g, t, k, p);
    }
  }

  lemma SameResigned(g: Game, s: set<RecordId>, t: set<RecordId>, group: Group, c: Color)
    requires Outside(g, s, group) == Outside(g, t, group)
    ensures Resigned(g, s, c) ==> Resigned(g, t, c)
  {
    if id :| id in s && g.says(id).body.Resign? && g.params.ColorOf(g.says(id).signer) == Some(c) {
      assert id in Outside(g, s, group);
    }
  }

  /** A chain stops short of a second move by the same signer, so none of its moves is in a full
      group. */
  lemma NotInFullGroup(g: Game, r: Rules, s: set<RecordId>, group: Group, i: nat)
    requires |InGroup(g, s, group)| == group.kind.K() && i < |ChainOf(g, r, s)|
    ensures g.GroupOf(ChainOf(g, r, s)[i]) != Some(group)
  {
    var chain, stop := ChainOf(g, r, s), StopPly(g, s);
    ChainEnds(g, r, s);
    LegalPrefix(g, r, s, stop, chain, i);
    if g.GroupOf(chain[i]) == Some(group) {
      MovesAreAGroup(g, s, group.signer, i + 1);
      FraudStops(g, s, ColorAtPly(i + 1), i + 1);
      assert false;
    }
  }

  lemma SwapKeepsChain(g: Game, r: Rules, s: set<RecordId>, t: set<RecordId>, group: Group)
    requires Outside(g, s, group) == Outside(g, t, group)
    requires |InGroup(g, s, group)| == group.kind.K() && StopPly(g, s) == StopPly(g, t)
    ensures ChainOf(g, r, s) <= ChainOf(g, r, t)
  {
    var chain, stop := ChainOf(g, r, s), StopPly(g, s);
    ChainEnds(g, r, s);
    LegalMembers(g, r, s, stop, chain);
    forall i | 0 <= i < |chain| ensures chain[i] in t {
      NotInFullGroup(g, r, s, group, i);
      assert chain[i] in Outside(g, s, group);
    }
    LegalInMore(g, r, s, stop, t, stop, chain);
    ChainIsMaximal(g, r, t, chain);
  }

  /** Merging never shrinks a within-K set; when its size stays the same, at most draw statements
      have been exchanged: the board, the fraud and the resignations are as before. */
  lemma {:induction false} SameSizeSameGame(g: Game, r: Rules, s: set<RecordId>, x: set<RecordId>)
    requires Top(g, s) == s
    ensures |s| <= |Top(g, s + x)|
    ensures |s| == |Top(g, s + x)| ==> SameGame(g, r, s, Top(g, s + x))
    decreases |x|
  {
    if x == {} {
      assert s + x == s;
    } else {
      var first :| first in x;
      var rest, mid := x - {first}, Top(g, s + {first});
      TopOfUnion(g, s + {first}, rest);
      assert s + {first} + rest == s + x;
      TopIdempotent(g, s + {first});
      SameSizeSameGame(g, r, mid, rest);
      if first in s {
        assert s + {first} == s;
      } else if g.GroupOf(first).None? {
        AddUngrouped(g, s, first);
      } else {
        AddOne(g, s, first);
        if |s| == |mid| {
          FullGroupSwap(g, r, s, mid, g.GroupOf(first).value);
        }
      }
    }
  }

  // ---- Draw claims and agreements ----

  /** `x` holds only statements by the key `k`. */
  ghost predicate OnlyBy(g: Game, x: set<RecordId>, k: Key) {
    forall id | id in x :: g.says(id).signer == k
  }

  /** Nobody can evict another signer's record. */
  lemma OthersSurvive(g: Game, s: set<RecordId>, x: set<RecordId>, k: Key, id: RecordId)
    requires Top(g, s) == s && OnlyBy(g, x, k) && id in s && g.says(id).signer != k
    ensures id in Top(g, s + x)
  {
    assert Survives(g, s, id);
    if g.GroupOf(id).Some? {
      assert Rivals(g, s + x, id) == Rivals(g, s, id);
    }
  }

  /** The chain moves on exactly when the new records hold a continuation of it. */
  lemma ChainAdvancesIff(g: Game, r: Rules, s: set<RecordId>, x: set<RecordId>)
    requires FraudPlies(g, s + x) == {} && !Halts(g, r, ChainOf(g, r, s))
    ensures ChainOf(g, r, s) <= ChainOf(g, r, Top(g, s + x))
    ensures ChainOf(g, r, Top(g, s + x)) == ChainOf(g, r, s) <==>
            forall id | id in x :: !Continues(g, r, ChainOf(g, r, s), id)
  {
    var chain, long := ChainOf(g, r, s), ChainOf(g, r, s + x);
    FraudGrows(g, s, s + x);
    EvictionKeepsChain(g, r, s + x);
    CutIsPrefix(g, r, s, s + x);
    PrefixIsTake(chain, long);
    ChainEnds(g, r, s);
    ChainEnds(g, r, s + x);
    if |chain| < |long| {
      LegalPrefix(g, r, s + x, None, long, |chain|);
      assert long[|chain|] !in Candidates(g, r, s, chain);
    } else {
      forall id | id in x ensures !Continues(g, r, chain, id) {
        assert id !in Candidates(g, r, s + x, chain);
      }
    }
  }

  lemma NoNewResignation(g: Game, s: set<RecordId>, x: set<RecordId>, c: Color)
    requires !Resigned(g, s, c) && forall id | id in x :: !g.says(id).body.Resign?
    ensures !Resigned(g, Top(g, s + x), c)
  {
  }

  predicate IsDrawByStatement(d: Option<Decision>) {
    d.Some? && d.value.reason in {ThreefoldClaim, FiftyMoveClaim, DrawAgreement}
  }

  /** A claim or an agreement decides only a game nothing else has decided. */
  lemma DrawByStatement(g: Game, r: Rules, s: set<RecordId>)
    requires IsDrawByStatement(Verdict(g, r, s))
    ensures FraudPlies(g, s) == {} && !Resigned(g, s, White) && !Resigned(g, s, Black)
    ensures BoardResult(r, Replay(g, r, ChainOf(g, r, s)), Halts(g, r, ChainOf(g, r, s))).None?
    ensures !Halts(g, r, ChainOf(g, r, s))
    ensures Verdict(g, r, s) == ChainVerdict(g, r, s, ChainOf(g, r, s))
  {
  }

  /** With no fraud and no resignation, the chain decides. */
  lemma ChainDecides(g: Game, r: Rules, t: set<RecordId>)
    requires FraudPlies(g, t) == {} && !Resigned(g, t, White) && !Resigned(g, t, Black)
    ensures Verdict(g, r, t) == ChainVerdict(g, r, t, ChainOf(g, r, t))
  {
  }

  /** So it does after records that bring neither. */
  lemma ChainStillDecides(g: Game, r: Rules, s: set<RecordId>, x: set<RecordId>)
    requires !Resigned(g, s, White) && !Resigned(g, s, Black)
    requires FraudPlies(g, s + x) == {} && forall id | id in x :: !g.says(id).body.Resign?
    ensures var t := Top(g, s + x); Verdict(g, r, t) == ChainVerdict(g, r, t, ChainOf(g, r, t))
    ensures FraudPlies(g, Top(g, s + x)) == {}
  {
    EvictionKeepsFraud(g, s + x);
    NoNewResignation(g, s, x, White);
    NoNewResignation(g, s, x, Black);
    ChainDecides(g, r, Top(g, s + x));
  }

  /** A valid claim cannot be voided by the claimant's opponent. */
  lemma ClaimHasNoRace(g: Game, r: Rules, s: set<RecordId>, x: set<RecordId>)
    requires g.params.white != g.params.black && r.Fair()
    requires Top(g, s) == s && Verdict(g, r, s).Some?
    requires Verdict(g, r, s).value.reason in {ThreefoldClaim, FiftyMoveClaim}
    requires OnlyBy(g, x, g.params.KeyOf(r.turn(Replay(g, r, ChainOf(g, r, s))).Other()))
    requires forall id | id in x :: !g.says(id).body.Resign?
    requires FraudPlies(g, s + x) == {}
    ensures ChainOf(g, r, Top(g, s + x)) == ChainOf(g, r, s)
    ensures Verdict(g, r, Top(g, s + x)) == Verdict(g, r, s)
  {
    var chain, t := ChainOf(g, r, s), Top(g, s + x);
    var turn := r.turn(Replay(g, r, chain));
    DrawByStatement(g, r, s);
    OpponentCannotMove(g, r, s, x);
    ChainAdvancesIff(g, r, s, x);
    ChainStillDecides(g, r, s, x);
    ClaimSurvives(g, s, x, Head(g, chain), turn);
  }

  /** Only the player to move can continue the game. */
  lemma OpponentCannotMove(g: Game, r: Rules, s: set<RecordId>, x: set<RecordId>)
    requires g.params.white != g.params.black && r.Fair()
    requires OnlyBy(g, x, g.params.KeyOf(r.turn(Replay(g, r, ChainOf(g, r, s))).Other()))
    ensures forall id | id in x :: !Continues(g, r, ChainOf(g, r, s), id)
  {
    ChainEnds(g, r, s);
    TurnByLength(g, r, s, StopPly(g, s), ChainOf(g, r, s));
  }

  lemma ClaimSurvives(g: Game, s: set<RecordId>, x: set<RecordId>, head: RecordId, turn: Color)
    requires g.params.white != g.params.black && Top(g, s) == s
    requires OnlyBy(g, x, g.params.KeyOf(turn.Other())) && ClaimedBy(g, s, head, turn)
    ensures ClaimedBy(g, Top(g, s + x), head, turn)
  {
    var id :| id in s && LiveClaim(g, id, head, turn);
    OthersSurvive(g, s, x, g.params.KeyOf(turn.Other()), id);
  }

  /** An accepted offer stands against the offerer's later records exactly when none of them is a
      lower-id offer in the same slot and none continues the game. The first can happen whoever
      is to move; the second only if the offerer is. */
  lemma AgreementStandsIff(g: Game, r: Rules, s: set<RecordId>, x: set<RecordId>, a: RecordId, o: RecordId)
    requires g.params.white != g.params.black && r.Fair() && Top(g, s) == s
    requires Verdict(g, r, s) == Some(Decision(None, DrawAgreement))
    requires a in s && o in s && Agree(g, a, o, Head(g, ChainOf(g, r, s)))
    requires OnlyBy(g, x, g.says(o).signer) && FraudPlies(g, s + x) == {}
    ensures a in Top(g, s + x)
    ensures o in Top(g, s + x) && ChainOf(g, r, Top(g, s + x)) == ChainOf(g, r, s) <==>
            forall id | id in x ::
              !(id < o && g.GroupOf(id) == g.GroupOf(o)) && !Continues(g, r, ChainOf(g, r, s), id)
    ensures g.says(o).signer != g.params.KeyOf(r.turn(Replay(g, r, ChainOf(g, r, s)))) ==>
            forall id | id in x :: !Continues(g, r, ChainOf(g, r, s), id)
  {
    var chain := ChainOf(g, r, s);
    DrawByStatement(g, r, s);
    ChainEnds(g, r, s);
    TurnByLength(g, r, s, StopPly(g, s), chain);
    ChainAdvancesIff(g, r, s, x);
    OthersSurvive(g, s, x, g.says(o).signer, a);
    SoleSurvivesIff(g, s, x, o);
  }

  /** In a group of one, survival is having no lower id against you. */
  lemma SoleSurvivesIff(g: Game, s: set<RecordId>, x: set<RecordId>, o: RecordId)
    requires Top(g, s) == s && o in s && g.says(o).body.DrawOffer?
    ensures o in Top(g, s + x) <==> forall id | id in x :: !(id < o && g.GroupOf(id) == g.GroupOf(o))
  {
    assert Survives(g, s, o);
    assert Rivals(g, s, o) == {};
    forall id | id in x ensures id in Rivals(g, s + x, o) <==> id < o && g.GroupOf(id) == g.GroupOf(o) {
    }
    assert Rivals(g, s + x, o) == {} <==> forall id | id in x :: !(id < o && g.GroupOf(id) == g.GroupOf(o));
  }

  /** While the accepted pair and the head stand, the game stays drawn: by agreement, unless the
      player to move now also has a live claim with ground. */
  lemma StandingAgreementDraws(g: Game, r: Rules, s: set<RecordId>, x: set<RecordId>, a: RecordId, o: RecordId)
    requires Verdict(g, r, s) == Some(Decision(None, DrawAgreement))
    requires Agree(g, a, o, Head(g, ChainOf(g, r, s))) && FraudPlies(g, s + x) == {}
    requires forall id | id in x :: !g.says(id).body.Resign?
    requires a in Top(g, s + x) && o in Top(g, s + x) && ChainOf(g, r, Top(g, s + x)) == ChainOf(g, r, s)
    ensures var chain, t := ChainOf(g, r, s), Top(g, s + x);
            var pos := Replay(g, r, chain);
            var ground := Ground(Occurrences(g, r, chain), r.halfmoves(pos));
            Verdict(g, r, t) == Some(Decision(None, if ClaimedBy(g, t, Head(g, chain), r.turn(pos)) && ground.Some?
                                                    then ground.value else DrawAgreement))
  {
    DrawByStatement(g, r, s);
    ChainStillDecides(g, r, s, x);
    assert DrawAgreed(g, Top(g, s + x), Head(g, ChainOf(g, r, s)));
  }

  /** An agreement whose acceptor is to move has no race. Nothing the offerer adds, short of a
      resignation or a forfeit, moves the chain; the decision stays exactly while some accepted
      offer is left at the head, as it is while the accepted offer itself survives eviction. */
  lemma AgreementHasNoRace(g: Game, r: Rules, s: set<RecordId>, x: set<RecordId>, a: RecordId, o: RecordId)
    requires g.params.white != g.params.black && r.Fair() && Top(g, s) == s
    requires Verdict(g, r, s) == Some(Decision(None, DrawAgreement))
    requires a in s && o in s && Agree(g, a, o, Head(g, ChainOf(g, r, s)))
    requires g.says(o).signer != g.params.KeyOf(r.turn(Replay(g, r, ChainOf(g, r, s))))
    requires OnlyBy(g, x, g.says(o).signer) && FraudPlies(g, s + x) == {}
    requires forall id | id in x :: !g.says(id).body.Resign?
    ensures ChainOf(g, r, Top(g, s + x)) == ChainOf(g, r, s)
    ensures Verdict(g, r, Top(g, s + x)) == Verdict(g, r, s) <==>
            DrawAgreed(g, Top(g, s + x), Head(g, ChainOf(g, r, s)))
    ensures o in Top(g, s + x) ==> Verdict(g, r, Top(g, s + x)) == Verdict(g, r, s)
  {
    var chain, t := ChainOf(g, r, s), Top(g, s + x);
    AgreementStandsIff(g, r, s, x, a, o);
    DrawByStatement(g, r, s);
    ChainAdvancesIff(g, r, s, x);
    ChainStillDecides(g, r, s, x);
    NoNewClaim(g, s, x, g.says(o).signer, Head(g, chain), r.turn(Replay(g, r, chain)));
  }

  /** Only the player to move can claim. */
  lemma NoNewClaim(g: Game, s: set<RecordId>, x: set<RecordId>, k: Key, head: RecordId, turn: Color)
    requires OnlyBy(g, x, k) && k != g.params.KeyOf(turn)
    ensures ClaimedBy(g, Top(g, s + x), head, turn) ==> ClaimedBy(g, s, head, turn)
  {
    if id :| id in Top(g, s + x) && LiveClaim(g, id, head, turn) {
      assert id in s;
    }
  }

  /** A claim or an agreement in `t` decides the game at the end of `chain`. */
  ghost predicate StatedDraw(g: Game, r: Rules, t: set<RecordId>, chain: Chain) {
    var pos, head := Replay(g, r, chain), Head(g, chain);
    || (ClaimedBy(g, t, head, r.turn(pos)) && Ground(Occurrences(g, r, chain), r.halfmoves(pos)).Some?)
    || DrawAgreed(g, t, head)
  }

  /** `t` shows no fraud at or below the head of the board read from `s`, and no move that continues it. */
  ghost predicate BoardStays(g: Game, r: Rules, s: set<RecordId>, t: set<RecordId>) {
    var chain, stop := ChainOf(g, r, s), StopPly(g, t);
    && (chain == [] || Before(stop, |chain|))
    && (Halts(g, r, chain) || !Before(stop, |chain| + 1) || forall id | id in t :: !Continues(g, r, chain, id))
  }

  /** What a merge leaves of the board, whatever the base held, over K or forged included. */
  lemma BoardStaysIff(g: Game, r: Rules, s: set<RecordId>, t: set<RecordId>)
    requires Later(g, s, t)
    ensures ChainOf(g, r, t) == ChainOf(g, r, s) <==> BoardStays(g, r, s, t)
  {
    var short, long, stop := ChainOf(g, r, s), ChainOf(g, r, t), StopPly(g, t);
    OnlyFraudRewinds(g, r, s, t);
    ChainEnds(g, r, t);
    ShortOfStop(g, r, t, stop, long);
    if short == [] || Before(stop, |short|) {
      assert Cut(short, stop) == short;
      PrefixIsTake(short, long);
      if |short| < |long| {
        LegalPrefix(g, r, t, stop, long, |short|);
        assert Continues(g, r, short, long[|short|]);
      } else {
        assert forall id | id in t && Continues(g, r, long, id) :: id in Candidates(g, r, t, long);
      }
    }
  }

  /** A line of legal moves in `t` from the board read from `s`, which nothing in `t` continues. */
  ghost predicate Line(g: Game, r: Rules, s: set<RecordId>, t: set<RecordId>, c: Chain) {
    && ChainOf(g, r, s) <= c && Legal(g, r, t, None, c)
    && (Halts(g, r, c) || forall id | id in t :: !Continues(g, r, c, id))
  }

  /** The merge brought nothing that decides the game: no second move at one ply, no resignation, and
      no line, the old board's own end included, that ends in a decided position or in a live claim
      or agreement. */
  ghost predicate VerdictStays(g: Game, r: Rules, s: set<RecordId>, t: set<RecordId>) {
    && (forall c: Color, p: Ply :: !DoubledAt(g, t, c, p))
    && !Resigned(g, t, White) && !Resigned(g, t, Black)
    && forall c | Line(g, r, s, t, c) ::
         BoardResult(r, Replay(g, r, c), Halts(g, r, c)).None? && !StatedDraw(g, r, t, c)
  }

  /** Without a fraud there is exactly one such line, and it is the new board. */
  lemma OneLine(g: Game, r: Rules, s: set<RecordId>, t: set<RecordId>, c: Chain)
    requires Later(g, s, t) && FraudPlies(g, t) == {}
    ensures Line(g, r, s, t, c) <==> c == ChainOf(g, r, t)
  {
    var board := ChainOf(g, r, t);
    OnlyFraudRewinds(g, r, s, t);
    ChainEnds(g, r, t);
    assert forall id | id in t && Continues(g, r, board, id) :: id in Candidates(g, r, t, board);
    if Line(g, r, s, t, c) {
      ChainIsMaximal(g, r, t, c);
      PrefixIsTake(c, board);
      if |c| < |board| {
        LegalPrefix(g, r, t, None, board, |c|);
      }
    }
  }

  lemma NoDoubles(g: Game, t: set<RecordId>)
    ensures FraudPlies(g, t) == {} <==> forall c: Color, p: Ply :: !DoubledAt(g, t, c, p)
  {
    forall c: Color, p: Ply | DoubledAt(g, t, c, p) ensures p in FraudPlies(g, t) {
    }
  }

  lemma VerdictStaysIff(g: Game, r: Rules, s: set<RecordId>, t: set<RecordId>)
    requires Later(g, s, t) && Verdict(g, r, s) == None
    ensures Verdict(g, r, t) == None <==> VerdictStays(g, r, s, t)
  {
    NoDoubles(g, t);
    if FraudPlies(g, t) == {} && !Resigned(g, t, White) && !Resigned(g, t, Black) {
      ChainDecides(g, r, t);
      OneLine(g, r, s, t, ChainOf(g, r, t));
      forall c | Line(g, r, s, t, c) ensures c == ChainOf(g, r, t) {
        OneLine(g, r, s, t, c);
      }
      ChainVerdictNone(g, r, t, ChainOf(g, r, t));
    }
  }

  lemma ChainVerdictNone(g: Game, r: Rules, t: set<RecordId>, chain: Chain)
    ensures ChainVerdict(g, r, t, chain) == None <==>
            BoardResult(r, Replay(g, r, chain), Halts(g, r, chain)).None? && !StatedDraw(g, r, t, chain)
  {
  }

  lemma Undecided(g: Game, r: Rules, s: set<RecordId>)
    requires Verdict(g, r, s) == None
    ensures FraudPlies(g, s) == {} && !Resigned(g, s, White) && !Resigned(g, s, Black)
    ensures var chain := ChainOf(g, r, s); BoardResult(r, Replay(g, r, chain), Halts(g, r, chain)).None?
    ensures !StatedDraw(g, r, s, ChainOf(g, r, s))
  {
  }

  /** From a within-K base, a merge that keeps the number of records keeps the board, and decides an
      undecided game exactly when it brings a live claim with ground or a live agreement. */
  lemma SameSizeVerdictIff(g: Game, r: Rules, s: set<RecordId>, x: set<RecordId>)
    requires Top(g, s) == s && |s| == |Top(g, s + x)|
    ensures BoardStays(g, r, s, Top(g, s + x))
    ensures Verdict(g, r, s) == None ==>
      && (VerdictStays(g, r, s, Top(g, s + x)) <==> !StatedDraw(g, r, Top(g, s + x), ChainOf(g, r, s)))
      && (Verdict(g, r, Top(g, s + x)) == None <==> !StatedDraw(g, r, Top(g, s + x), ChainOf(g, r, s)))
  {
    var t := Top(g, s + x);
    assert Later(g, s, t);
    SameSizeSameGame(g, r, s, x);
    BoardStaysIff(g, r, s, t);
    if Verdict(g, r, s) == None {
      VerdictStaysIff(g, r, s, t);
      Undecided(g, r, s);
      FraudIsFraudPlies(g, s, t);
      ChainDecides(g, r, t);
      ChainVerdictNone(g, r, t, ChainOf(g, r, s));
    }
  }

  lemma FraudIsFraudPlies(g: Game, s: set<RecordId>, t: set<RecordId>)
    requires FraudOf(g, s) == FraudOf(g, t)
    ensures FraudPlies(g, s) == {} <==> FraudPlies(g, t) == {}
  {
  }

  // ---- Playing a move ----

  /** A player's first signature at the next ply, legal and parented on the head, is the new head:
      nothing an opponent holds can keep it out. */
  lemma FirstSignatureAdvances(g: Game, r: Rules, s: set<RecordId>, id: RecordId)
    requires FraudPlies(g, s) == {} && !Halts(g, r, ChainOf(g, r, s))
    requires Follows(g, r, ChainOf(g, r, s), Replay(g, r, ChainOf(g, r, s)), id)
    requires MovesAt(g, s, g.says(id).signer, g.says(id).body.ply) <= {id}
    ensures ChainOf(g, r, s) + [id] <= ChainOf(g, r, Top(g, s + {id}))
    ensures FraudOf(g, Top(g, s + {id})).None?
  {
    FollowsIsContinues(g, r, ChainOf(g, r, s), id);
    FirstIsNoFraud(g, s, id);
    EvictionKeepsFraud(g, s + {id});
    EvictionKeepsChain(g, r, s + {id});
    NextMoveExtends(g, r, s, id);
  }

  lemma FirstIsNoFraud(g: Game, s: set<RecordId>, id: RecordId)
    requires FraudPlies(g, s) == {} && g.says(id).body.Move?
    requires MovesAt(g, s, g.says(id).signer, g.says(id).body.ply) <= {id}
    ensures FraudPlies(g, s + {id}) == {}
  {
    var t := s + {id};
    forall c: Color, p: Ply ensures DoubledAt(g, t, c, p) ==> DoubledAt(g, s, c, p) {
      var k := g.params.KeyOf(c);
      if IsMoveBy(g, id, k, p) {
        assert MovesAt(g, t, k, p) == {id};
      } else {
        assert MovesAt(g, t, k, p) == MovesAt(g, s, k, p);
      }
    }
    assert FraudPlies(g, t) <= FraudPlies(g, s);
  }

  lemma NextMoveExtends(g: Game, r: Rules, s: set<RecordId>, id: RecordId)
    requires FraudPlies(g, s) == {} && FraudPlies(g, s + {id}) == {} && !Halts(g, r, ChainOf(g, r, s))
    requires Continues(g, r, ChainOf(g, r, s), id)
    ensures ChainOf(g, r, s) + [id] <= ChainOf(g, r, s + {id})
  {
    var chain, t := ChainOf(g, r, s), s + {id};
    ChainEnds(g, r, s);
    LegalMembers(g, r, s, None, chain);
    LegalInMore(g, r, s, None, t, None, chain);
    assert (chain + [id])[..|chain|] == chain;
    assert Legal(g, r, t, None, chain + [id]);
    ChainIsMaximal(g, r, t, chain + [id]);
  }

  /** Every id of the accepted chain names a move record of the state, so a move list read off the
      chain skips nothing. */
  lemma ChainIsInState(g: Game, r: Rules, m: Records)
    requires g.Sound() && Keyed(g, m)
    ensures forall id | id in ChainOf(g, r, m.Keys) :: id in m && m[id].body.Move?
  {
    ChainEnds(g, r, m.Keys);
    LegalMembers(g, r, m.Keys, StopPly(g, m.Keys), ChainOf(g, r, m.Keys));
    forall id | id in ChainOf(g, r, m.Keys) ensures id in m && m[id].body.Move? {
      SaysOf(g, m, id);
    }
  }
}
