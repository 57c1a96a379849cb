/** Summaries and deltas, the validity filter, and the size bound (common/src/state.rs). */
module Sync {
  import opened Types
  import opened Finite
  import opened TopK
  import opened State
  import opened Algebra

  /** The records the other peer is missing or holds under a different signature. */
  method DeltaAgainst(g: Game, m: Records, summary: Summary) returns (delta: seq<Record>)
    requires Keyed(g, m)
    ensures IsDelta(g, m, summary, delta)
  {
    var ids := InOrder(m.Keys);
    delta := [];
    for i := 0 to |ids|
      invariant IsDelta(g, Restrict(m, ids[..i]), summary, delta)
    {
      DeltaStep(g, m, ids, i, summary, delta);
      delta := Extended(g, m, summary, delta, ids[i]);
    }
    RestrictAll(m, ids);
  }

  function Extended(g: Game, m: Records, summary: Summary, delta: seq<Record>, id: RecordId): seq<Record>
    requires id in m
  {
    if Offered(g, m, summary, id) then delta + [m[id]] else delta
  }

  lemma DeltaStep(g: Game, m: Records, ids: seq<RecordId>, i: nat, summary: Summary, delta: seq<Record>)
    requires Keyed(g, m) && Lists(ids, m.Keys) && i < |ids|
    requires IsDelta(g, Restrict(m, ids[..i]), summary, delta)
    ensures ids[i] in m
    ensures IsDelta(g, Restrict(m, ids[..i + 1]), summary, Extended(g, m, summary, delta, ids[i]))
  {
    RestrictGrows(m, ids, i);
    DeltaGrows(g, Restrict(m, ids[..i]), summary, delta, m[ids[i]]);
  }

  /** The next record in id order joins the delta exactly when it is offered. */
  lemma DeltaGrows(g: Game, m: Records, summary: Summary, delta: seq<Record>, rec: Record)
    requires Keyed(g, m) && IsDelta(g, m, summary, delta) && forall id | id in m :: id < g.Id(rec)
    ensures var more := m[g.Id(rec) := rec];
            IsDelta(g, more, summary, Extended(g, more, summary, delta, g.Id(rec)))
  {
  }

  // ---- Delta sync refines a full merge ----

  /** The part of `b` that `delta` carries. */
  ghost function Carried(g: Game, b: Records, delta: seq<Record>): Records {
    map id | id in b && b[id] in delta :: b[id]
  }

  lemma {:induction false} DeltaIsPart(g: Game, a: Records, b: Records, delta: seq<Record>)
    requires g.Sound() && Keyed(g, a) && Keyed(g, b)
    requires forall i | 0 <= i < |delta| :: g.Id(delta[i]) in b && delta[i] == b[g.Id(delta[i])]
    requires forall i, j | 0 <= i < j < |delta| :: g.Id(delta[i]) < g.Id(delta[j])
    ensures AbsorbedAll(g, a, delta) == AbsorbedState(g, a, Carried(g, b, delta))
  {
    if delta == [] {
      assert Carried(g, b, delta) == map[];
    } else {
      var n := |delta| - 1;
      DeltaIsPart(g, a, b, delta[..n]);
      CarriedLast(g, b, delta);
      AbsorbFresh(g, a, Carried(g, b, delta[..n]), delta[n]);
    }
  }

  lemma CarriedLast(g: Game, b: Records, delta: seq<Record>)
    requires Keyed(g, b) && delta != []
    requires forall i | 0 <= i < |delta| :: g.Id(delta[i]) in b && delta[i] == b[g.Id(delta[i])]
    requires forall i, j | 0 <= i < j < |delta| :: g.Id(delta[i]) < g.Id(delta[j])
    ensures var n := |delta| - 1;
            g.Id(delta[n]) !in Carried(g, b, delta[..n])
            && Carried(g, b, delta) == Carried(g, b, delta[..n])[g.Id(delta[n]) := delta[n]]
  {
    var n := |delta| - 1;
    SplitLast(delta);
    var less, all := Carried(g, b, delta[..n]), Carried(g, b, delta);
    forall id | id in b && b[id] in delta[..n] ensures id < g.Id(delta[n]) {
      var i :| 0 <= i < n && delta[i] == b[id];
    }
    forall id | id in b ensures id in all <==> id in less || id == g.Id(delta[n]) {
    }
  }

  /** Sending only the summary's difference does exactly what sending everything does,
      whatever either side holds. */
  lemma DeltaRefinesMerge(g: Game, a: Records, b: Records, delta: seq<Record>)
    requires g.Sound() && Keyed(g, a) && Keyed(g, b)
    requires IsDelta(g, b, Summarized(g, a), delta)
    ensures Applied(g, a, delta) == Merged(g, a, b)
  {
    DeltaIsPart(g, a, b, delta);
    var part := Carried(g, b, delta);
    forall id | id in b && id !in part ensures id in a && a[id] == b[id] {
      NotOfferedIsHeld(g, a, b, id);
    }
    SkippingHeld(g, a, b, part);
  }

  lemma NotOfferedIsHeld(g: Game, a: Records, b: Records, id: RecordId)
    requires g.Sound() && Keyed(g, a) && Keyed(g, b) && id in b
    ensures !Offered(g, b, Summarized(g, a), id) <==> id in a && a[id] == b[id]
  {
    if id in a && g.digest(a[id].sig) == g.digest(b[id].sig) {
      assert g.undigest(g.digest(a[id].sig)) == g.undigest(g.digest(b[id].sig));
      SameSlot(g, a[id], b[id]);
    }
  }

  /** Absorbing a record already held changes nothing. */
  lemma SkippingHeld(g: Game, a: Records, b: Records, part: Records)
    requires Keyed(g, a) && Keyed(g, b) && part.Keys <= b.Keys
    requires forall id | id in part :: part[id] == b[id]
    requires forall id | id in b && id !in part :: id in a && a[id] == b[id]
    ensures AbsorbedState(g, a, part) == AbsorbedState(g, a, b)
  {
    var x, y := AbsorbedState(g, a, part), AbsorbedState(g, a, b);
    forall id ensures id in x <==> id in y
              ensures id in x && id in y ==> x[id] == y[id]
    {
    }
  }

  /** A delta is empty exactly when the summary already names every record held, signature
      included. */
  lemma DeltaEmpty(g: Game, m: Records, n: Records, delta: seq<Record>)
    requires g.Sound() && Keyed(g, m) && Keyed(g, n)
    requires IsDelta(g, m, Summarized(g, n), delta)
    ensures delta == [] <==> forall id | id in m :: id in n && n[id] == m[id]
  {
    forall id | id in m ensures Offered(g, m, Summarized(g, n), id) <==> !(id in n && n[id] == m[id]) {
      NotOfferedIsHeld(g, n, m, id);
    }
    if delta == [] {
      forall id | id in m ensures id in n && n[id] == m[id] {
        assert m[id] !in delta;
      }
    } else {
      assert delta[0] in delta && g.Id(delta[0]) in m;
    }
  }

  /** One exchange in each direction: both peers land on the same state, which dominates both,
      and neither ever offers the other anything again. */
  lemma ExchangeSettles(g: Game, a: Records, b: Records, toA: seq<Record>, toB: seq<Record>,
                        again: seq<Record>)
    requires g.Sound() && Normal(g, a) && Normal(g, b)
    requires IsDelta(g, b, Summarized(g, a), toA) && IsDelta(g, a, Summarized(g, b), toB)
    requires var a', b' := Applied(g, a, toA), Applied(g, b, toB);
             IsDelta(g, a', Summarized(g, b'), again) || IsDelta(g, b', Summarized(g, a'), again)
    ensures Applied(g, a, toA) == Applied(g, b, toB) == Merged(g, a, b)
    ensures Merged(g, Merged(g, a, b), b) == Merged(g, a, b)
    ensures again == []
  {
    DeltaRefinesMerge(g, a, b, toA);
    DeltaRefinesMerge(g, b, a, toB);
    MergeCommutes(g, a, b);
    MergeDominates(g, a, b);
    DeltaEmpty(g, Merged(g, a, b), Merged(g, a, b), again);
  }

  /** Does `a` beat a record of `b`, by K smaller ids in its group or by a smaller signature? */
  ghost predicate Beaten(g: Game, a: Records, b: Records, id: RecordId)
    requires id in b
  {
    !Survives(g, a.Keys + b.Keys, id) || (id in a && a[id].sig < b[id].sig)
  }

  /** After ONE direction the sender falls silent exactly when the receiver beat none of its
      records; otherwise it keeps re-offering what the receiver dropped. */
  lemma OneWaySettlesIff(g: Game, a: Records, b: Records, toA: seq<Record>, again: seq<Record>)
    requires g.Sound() && Normal(g, a) && Normal(g, b)
    requires IsDelta(g, b, Summarized(g, a), toA)
    requires IsDelta(g, b, Summarized(g, Applied(g, a, toA)), again)
    ensures again == [] <==> forall id | id in b :: !Beaten(g, a, b, id)
  {
    DeltaRefinesMerge(g, a, b, toA);
    MergeDominates(g, a, b);
    DeltaEmpty(g, b, Merged(g, a, b), again);
    forall id | id in b
      ensures Beaten(g, a, b, id) <==> !(id in Merged(g, a, b) && Merged(g, a, b)[id] == b[id])
    {
      BeatenIsDropped(g, a, b, id);
    }
  }

  lemma BeatenIsDropped(g: Game, a: Records, b: Records, id: RecordId)
    requires g.Sound() && Normal(g, a) && Normal(g, b) && id in b
    ensures Beaten(g, a, b, id) <==> !(id in Merged(g, a, b) && Merged(g, a, b)[id] == b[id])
  {
    var joined := AbsorbedState(g, a, b);
    assert joined.Keys == a.Keys + b.Keys;
    EvictedIsTop(g, joined);
    if id in a {
      SameSlot(g, a[id], b[id]);
    }
  }

  // ---- Does validating commute with merging? ----

  /** Some forged record is kept by eviction while a valid one of its group is dropped. */
  ghost predicate ForgeryCrowdsOut(g: Game, ids: set<RecordId>, valid: set<RecordId>) {
    exists x, y :: x in Top(g, ids) - valid && y in valid - Top(g, ids) && g.GroupOf(x) == g.GroupOf(y)
  }

  lemma TopOfValid(g: Game, ids: set<RecordId>, valid: set<RecordId>)
    requires valid <= ids
    ensures Top(g, ids) * valid <= Top(g, valid)
    ensures Top(g, ids) * valid == Top(g, valid) <==> !ForgeryCrowdsOut(g, ids, valid)
  {
    forall id | id in Top(g, ids) * valid ensures id in Top(g, valid) {
      SurvivesInSubset(g, valid, ids, id);
    }
    if y :| y in Top(g, valid) && y !in Top(g, ids) {
      var low := EvictedHasRivals(g, ids, y);
      if low <= valid {
        SubsetSize(low, Rivals(g, valid, y));
        assert false;
      }
      var x :| x in low && x !in valid;
      assert ForgeryCrowdsOut(g, ids, valid);
    }
    if ForgeryCrowdsOut(g, ids, valid) {
      var x, y :| x in Top(g, ids) - valid && y in valid - Top(g, ids) && g.GroupOf(x) == g.GroupOf(y);
      CrowdedGroupDiffers(g, ids, valid, x, y);
    }
  }

  lemma CrowdedGroupDiffers(g: Game, ids: set<RecordId>, valid: set<RecordId>, x: RecordId, y: RecordId)
    requires valid <= ids && g.GroupOf(x) == g.GroupOf(y)
    requires x in Top(g, ids) - valid && y in valid - Top(g, ids)
    ensures Top(g, ids) * valid != Top(g, valid)
  {
    var group := g.GroupOf(x).value;
    var keptValid := InGroup(g, Top(g, ids) * valid, group);
    var members := InGroup(g, valid, group);
    GroupFloor(g, ids, group);
    GroupFloor(g, valid, group);
    assert keptValid + {x} <= InGroup(g, Top(g, ids), group);
    SubsetSize(keptValid + {x}, InGroup(g, Top(g, ids), group));
    assert keptValid + {y} <= members;
    SubsetSize(keptValid + {y}, members);
    assert |InGroup(g, Top(g, ids), group)| <= group.kind.K();
    assert |keptValid| < |InGroup(g, Top(g, valid), group)|;
  }

  ghost function ValidIds(g: Game, m: Records): set<RecordId> {
    set id | id in m && g.Verify(m[id])
  }

  ghost function Picked(m: Records, ids: set<RecordId>): Records {
    map id | id in m && id in ids :: m[id]
  }

  lemma PickedAlike(m: Records, a: set<RecordId>, b: set<RecordId>)
    requires a <= m.Keys && b <= m.Keys
    ensures Picked(m, a) == Picked(m, b) <==> a == b
  {
    assert Picked(m, a).Keys == a && Picked(m, b).Keys == b;
  }

  lemma FilteredIs(g: Game, m: Records)
    requires g.Sound() && Keyed(g, m)
    ensures Filtered(g, m) == StateOf(g, m.Values)
    ensures Filtered(g, m) == Picked(m, Top(g, ValidIds(g, m)))
    ensures Normal(g, Filtered(g, m))
  {
    var none: Records := map[];
    MergeIsUnion(g, none, m);
    assert none.Values + m.Values == m.Values;
    StateOfNormal(g, m.Values);
    EvictedIsTop(g, AbsorbedState(g, none, m));
    assert AbsorbedState(g, none, m).Keys == ValidIds(g, m);
  }

  /** Validating after a merge agrees with validating before it exactly when no forged record
      already in the base crowds a valid one out of its group. */
  lemma FilterCommutesIff(g: Game, a: Records, b: Records)
    requires g.Sound() && Keyed(g, a) && Keyed(g, b)
    ensures Filtered(g, Merged(g, a, b)) == Merged(g, Filtered(g, a), Filtered(g, b)) <==>
            !ForgeryCrowdsOut(g, AbsorbedState(g, a, b).Keys, ValidIds(g, AbsorbedState(g, a, b)))
  {
    var joined := AbsorbedState(g, a, b);
    var valid := ValidIds(g, joined);
    EvictedIsTop(g, joined);
    FilterOfEvicted(g, joined);
    FilterParts(g, a, b);
    TopOfValid(g, joined.Keys, valid);
    PickedAlike(joined, Top(g, joined.Keys) * valid, Top(g, valid));
  }

  lemma FilterOfEvicted(g: Game, joined: Records)
    requires g.Sound() && Keyed(g, joined)
    ensures Filtered(g, Evicted(joined)) ==
            Picked(joined, Top(g, joined.Keys) * ValidIds(g, joined))
  {
    var kept := Evicted(joined);
    EvictedIsTop(g, joined);
    FilteredIs(g, kept);
    assert ValidIds(g, kept) == Top(g, joined.Keys) * ValidIds(g, joined);
    forall id | id in ValidIds(g, kept) ensures id in Top(g, ValidIds(g, kept)) {
      SurvivesInSubset(g, ValidIds(g, kept), joined.Keys, id);
    }
  }

  lemma FilterParts(g: Game, a: Records, b: Records)
    requires g.Sound() && Keyed(g, a) && Keyed(g, b)
    ensures var joined := AbsorbedState(g, a, b);
            Merged(g, Filtered(g, a), Filtered(g, b)) ==
            Picked(joined, Top(g, ValidIds(g, joined)))
  {
    var joined := AbsorbedState(g, a, b);
    FilteredIs(g, a);
    FilteredIs(g, b);
    FilteredIs(g, joined);
    MergeIntoState(g, a.Values, Filtered(g, b));
    MergeFromState(g, StateOf(g, a.Values), b.Values);
    EarlyEviction(g, a.Values, b.Values);
    assert Merged(g, Filtered(g, a), Filtered(g, b)) == StateOf(g, a.Values + b.Values);
    SameValidJoin(g, a, b);
  }

  lemma SameValidJoin(g: Game, a: Records, b: Records)
    requires g.Sound() && Keyed(g, a) && Keyed(g, b)
    ensures StateOf(g, AbsorbedState(g, a, b).Values) == StateOf(g, a.Values + b.Values)
  {
    var joined := AbsorbedState(g, a, b);
    var m := Join(g, joined.Values);
    JoinJoins(g, joined.Values);
    forall r | r in a.Values + b.Values && g.Verify(r) ensures g.Id(r) in m && m[g.Id(r)].sig <= r.sig {
      var id := g.Id(r);
      assert id in joined && g.Verify(joined[id]) && joined[id].sig <= r.sig by {
        if r in a.Values {
          var k :| k in a && a[k] == r;
        } else {
          var k :| k in b && b[k] == r;
        }
      }
      assert joined[id] in joined.Values;
    }
    assert joined.Values <= a.Values + b.Values;
    IsTheJoin(g, m, a.Values + b.Values);
  }

  // ---- The state is bounded ----

  ghost function AtPly(g: Game, s: set<RecordId>, signer: Key, ply: nat): set<RecordId> {
    set id | id in s && g.says(id).signer == signer && !g.says(id).body.Resign? && g.says(id).body.ply == ply
  }

  lemma GroupWithinK(g: Game, s: set<RecordId>, group: Group)
    requires Top(g, s) == s
    ensures |InGroup(g, s, group)| <= group.kind.K()
  {
    GroupFloor(g, s, group);
  }

  lemma AtPlyByKind(g: Game, s: set<RecordId>, signer: Key, ply: Ply)
    ensures AtPly(g, s, signer, ply) ==
            InGroup(g, s, Group(signer, KMove, ply)) + InGroup(g, s, Group(signer, KDrawOffer, ply)) +
            InGroup(g, s, Group(signer, KDrawAccept, ply)) + InGroup(g, s, Group(signer, KDrawClaim, ply))
  {
  }

  /** One signer holds at most five records at one ply: two moves and one of each draw kind. */
  lemma FivePerPly(g: Game, s: set<RecordId>, signer: Key, ply: Ply)
    requires Top(g, s) == s
    ensures |AtPly(g, s, signer, ply)| <= 5
  {
    AtPlyByKind(g, s, signer, ply);
    GroupWithinK(g, s, Group(signer, KMove, ply));
    GroupWithinK(g, s, Group(signer, KDrawOffer, ply));
    GroupWithinK(g, s, Group(signer, KDrawAccept, ply));
    GroupWithinK(g, s, Group(signer, KDrawClaim, ply));
  }

  ghost function BelowPly(g: Game, s: set<RecordId>, ply: nat): set<RecordId> {
    set id | id in s && !g.says(id).body.Resign? && g.says(id).body.ply < ply
  }

  lemma {:induction false} TenPerPly(g: Game, s: set<RecordId>, ply: nat)
    requires Top(g, s) == s && ply <= 0x10000
    requires forall id | id in s :: g.params.ColorOf(g.says(id).signer).Some?
    ensures |BelowPly(g, s, ply)| <= 10 * ply
  {
    if ply == 0 {
      assert BelowPly(g, s, 0) == {};
    } else {
      TenPerPly(g, s, ply - 1);
      TenMore(g, s, ply - 1);
    }
  }

  lemma TenMore(g: Game, s: set<RecordId>, ply: Ply)
    requires Top(g, s) == s && forall id | id in s :: g.params.ColorOf(g.says(id).signer).Some?
    ensures |BelowPly(g, s, ply + 1)| <= |BelowPly(g, s, ply)| + 10
  {
    var white, black := AtPly(g, s, g.params.white, ply), AtPly(g, s, g.params.black, ply);
    FivePerPly(g, s, g.params.white, ply);
    FivePerPly(g, s, g.params.black, ply);
    var lower := BelowPly(g, s, ply);
    UnionSize(lower, white);
    UnionSize(lower + white, black);
    BelowPlySplits(g, s, ply);
    SubsetSize(BelowPly(g, s, ply + 1), lower + white + black);
  }

  lemma BelowPlySplits(g: Game, s: set<RecordId>, ply: nat)
    requires forall id | id in s :: g.params.ColorOf(g.says(id).signer).Some?
    ensures BelowPly(g, s, ply + 1) <=
            BelowPly(g, s, ply) + AtPly(g, s, g.params.white, ply) + AtPly(g, s, g.params.black, ply)
  {
  }

  /** Five records per player per ply over the 4097 plies, and one resignation each. */
  lemma StateBounded(g: Game, m: Records)
    requires g.Sound() && Normal(g, m)
    ensures |m| <= 40972
  {
    var s := m.Keys;
    EvictedIsTop(g, m);
    KeyedGroups(g, m);
    TenPerPly(g, s, MAX_PLY + 1);
    var resigns := {g.recordId(Statement(g.params.white, Resign)), g.recordId(Statement(g.params.black, Resign))};
    forall id | id in s ensures id in BelowPly(g, s, MAX_PLY + 1) + resigns {
      assert g.Id(m[id]) == id && g.Verify(m[id]);
    }
    SubsetSize(s, BelowPly(g, s, MAX_PLY + 1) + resigns);
  }
}
