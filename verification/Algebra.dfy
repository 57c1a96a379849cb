/** The laws of merge. Everything rests on one representation: a valid state is the eviction of
    the smallest-signature join of a SET of valid records, and merging is union of those sets. */
module Algebra {
  import opened Types
  import opened Finite
  import opened TopK
  import opened State

  /** `m` holds, for each statement validly signed in `recs`, its smallest valid signature. */
  ghost predicate IsJoin(g: Game, m: Records, recs: set<Record>) {
    && Keyed(g, m)
    && (forall id | id in m :: m[id] in recs && g.Verify(m[id]))
    && (forall r | r in recs && g.Verify(r) :: g.Id(r) in m && m[g.Id(r)].sig <= r.sig)
  }

  lemma JoinUnique(g: Game, m: Records, n: Records, recs: set<Record>)
    requires g.Sound() && IsJoin(g, m, recs) && IsJoin(g, n, recs)
    ensures m == n
  {
    forall id | id in m ensures id in n && m[id] == n[id] {
      assert g.Id(m[id]) == id;
      SameSlot(g, m[id], n[id]);
    }
    forall id | id in n ensures id in m {
      assert g.Id(n[id]) == id;
    }
  }

  lemma AbsorbJoins(g: Game, m: Records, recs: set<Record>, rec: Record)
    requires IsJoin(g, m, recs)
    ensures IsJoin(g, Absorbed(g, m, rec), recs + {rec})
  {
  }

  ghost function Join(g: Game, recs: set<Record>): Records
    decreases |recs|
  {
    if recs == {} then map[] else
      var rec :| rec in recs;
      Absorbed(g, Join(g, recs - {rec}), rec)
  }

  lemma {:induction false} JoinJoins(g: Game, recs: set<Record>)
    ensures IsJoin(g, Join(g, recs), recs)
    decreases |recs|
  {
    if recs != {} {
      var rec :| rec in recs && Join(g, recs) == Absorbed(g, Join(g, recs - {rec}), rec);
      JoinJoins(g, recs - {rec});
      AbsorbJoins(g, Join(g, recs - {rec}), recs - {rec}, rec);
      assert recs - {rec} + {rec} == recs;
    }
  }

  lemma IsTheJoin(g: Game, m: Records, recs: set<Record>)
    requires g.Sound() && IsJoin(g, m, recs)
    ensures m == Join(g, recs)
  {
    JoinJoins(g, recs);
    JoinUnique(g, m, Join(g, recs), recs);
  }

  /** The state a peer holds after receiving exactly `recs`. */
  ghost function StateOf(g: Game, recs: set<Record>): Records {
    Evicted(Join(g, recs))
  }

  /** What the network stores: every record valid and under its own id, however many of a group. */
  ghost predicate Authentic(g: Game, m: Records) {
    Keyed(g, m) && AllValid(g, m)
  }

  /** The normal form of `m` has nothing to gain from `recs`. */
  ghost predicate Contains(g: Game, m: Records, recs: set<Record>) {
    StateOf(g, m.Values + recs) == StateOf(g, m.Values)
  }

  /** All valid and within K. */
  ghost predicate Normal(g: Game, m: Records) {
    Keyed(g, m) && AllValid(g, m) && Evicted(m) == m
  }

  /** On a keyed map, eviction is top-K of its ids. */
  lemma EvictedIsTop(g: Game, m: Records)
    requires g.Sound() && Keyed(g, m)
    ensures forall id | id in m :: Kept(m, id) <==> Survives(g, m.Keys, id)
    ensures Evicted(m).Keys == Top(g, m.Keys)
  {
    KeyedGroups(g, m);
    forall id | id in m ensures Kept(m, id) <==> Survives(g, m.Keys, id) {
      if GroupIn(m, id).Some? {
        assert Under(GroupIds(m, GroupIn(m, id).value), id) == Rivals(g, m.Keys, id);
      }
    }
  }

  lemma KeyedGroups(g: Game, m: Records)
    requires g.Sound() && Keyed(g, m)
    ensures forall id | id in m :: g.says(id) == m[id].Says() && g.GroupOf(id) == GroupIn(m, id)
  {
    forall id | id in m ensures g.says(id) == m[id].Says() {
      assert g.says(g.recordId(m[id].Says())) == m[id].Says();
    }
  }

  lemma StateOfNormal(g: Game, recs: set<Record>)
    requires g.Sound()
    ensures Normal(g, StateOf(g, recs)) && StateOf(g, recs).Values <= recs
    ensures StateOf(g, recs).Keys == Top(g, Join(g, recs).Keys)
  {
    var m := Join(g, recs);
    JoinJoins(g, recs);
    EvictedIsTop(g, m);
    EvictedIsTop(g, Evicted(m));
    TopIdempotent(g, m.Keys);
  }

  lemma NormalIsStateOf(g: Game, m: Records)
    requires g.Sound() && Normal(g, m)
    ensures m == StateOf(g, m.Values)
  {
    ValidIsJoin(g, m);
    IsTheJoin(g, m, m.Values);
  }

  lemma ValidIsJoin(g: Game, m: Records)
    requires g.Sound() && Keyed(g, m) && AllValid(g, m)
    ensures IsJoin(g, m, m.Values)
  {
    forall r | r in m.Values ensures g.Id(r) in m && m[g.Id(r)].sig <= r.sig {
      var id :| id in m && m[id] == r;
    }
  }

  /** Receiving a peer's evicted state is as good as receiving everything it ever received. */
  lemma EarlyEviction(g: Game, recs: set<Record>, more: set<Record>)
    requires g.Sound()
    ensures StateOf(g, StateOf(g, recs).Values + more) == StateOf(g, recs + more)
  {
    var full, part := Join(g, recs + more), Join(g, StateOf(g, recs).Values + more);
    EarlyKeys(g, recs, more);
    forall id | id in Top(g, full.Keys) ensures id in part && part[id] == full[id] {
      assert id in Top(g, part.Keys);
      EarlySlot(g, recs, more, id);
    }
    JoinJoins(g, recs + more);
    JoinJoins(g, StateOf(g, recs).Values + more);
    SameEvicted(g, full, part);
  }

  /** Eviction sees only what survives. */
  lemma SameEvicted(g: Game, m: Records, n: Records)
    requires g.Sound() && Keyed(g, m) && Keyed(g, n) && Top(g, m.Keys) == Top(g, n.Keys)
    requires forall id | id in Top(g, m.Keys) :: id in m && id in n && n[id] == m[id]
    ensures Evicted(m) == Evicted(n)
  {
    EvictedIsTop(g, m);
    EvictedIsTop(g, n);
  }

  lemma EarlyKeys(g: Game, recs: set<Record>, more: set<Record>)
    requires g.Sound()
    ensures Join(g, recs + more).Keys == Join(g, recs).Keys + Join(g, more).Keys
    ensures Top(g, Join(g, StateOf(g, recs).Values + more).Keys) == Top(g, Join(g, recs + more).Keys)
  {
    var early := StateOf(g, recs);
    StateOfNormal(g, recs);
    JoinKeys(g, recs, more);
    JoinKeys(g, early.Values, more);
    NormalKeys(g, early);
    TopOfUnion(g, Join(g, recs).Keys, Join(g, more).Keys);
  }

  lemma JoinKeys(g: Game, a: set<Record>, b: set<Record>)
    requires g.Sound()
    ensures Join(g, a + b).Keys == Join(g, a).Keys + Join(g, b).Keys
  {
    var all := Join(g, a + b);
    JoinJoins(g, a);
    JoinJoins(g, b);
    JoinJoins(g, a + b);
    forall id | id in all ensures id in Join(g, a).Keys + Join(g, b).Keys {
      assert g.Id(all[id]) == id;
    }
    forall id | id in Join(g, a) ensures id in all {
      assert g.Id(Join(g, a)[id]) == id;
    }
    forall id | id in Join(g, b) ensures id in all {
      assert g.Id(Join(g, b)[id]) == id;
    }
  }

  lemma NormalKeys(g: Game, m: Records)
    requires g.Sound() && Keyed(g, m) && AllValid(g, m)
    ensures Join(g, m.Values) == m
  {
    ValidIsJoin(g, m);
    IsTheJoin(g, m, m.Values);
  }

  /** A surviving slot's signature is untouched by evicting early. */
  lemma EarlySlot(g: Game, recs: set<Record>, more: set<Record>, id: RecordId)
    requires g.Sound()
    requires id in Top(g, Join(g, recs + more).Keys)
    requires Join(g, recs + more).Keys == Join(g, recs).Keys + Join(g, more).Keys
    requires id in Join(g, StateOf(g, recs).Values + more)
    ensures Join(g, StateOf(g, recs).Values + more)[id] == Join(g, recs + more)[id]
  {
    var early := StateOf(g, recs);
    var full, part := Join(g, recs + more), Join(g, early.Values + more);
    StateOfNormal(g, recs);
    JoinJoins(g, recs);
    JoinJoins(g, recs + more);
    JoinJoins(g, early.Values + more);
    var best := full[id];
    assert g.Id(best) == id && g.Id(part[id]) == id;
    assert part[id] in recs + more;
    if best !in more {
      var held := Join(g, recs);
      assert g.Id(best) in held;
      SurvivesInSubset(g, held.Keys, full.Keys, id);
      assert id in early && early[id] == held[id] && early[id] in early.Values;
    }
    SameSlot(g, part[id], best);
  }

  /** Sets with the same state stay so whatever joins them. */
  lemma SameState(g: Game, a: set<Record>, b: set<Record>, more: set<Record>)
    requires g.Sound() && StateOf(g, a) == StateOf(g, b)
    ensures StateOf(g, a + more) == StateOf(g, b + more)
  {
    EarlyEviction(g, a, more);
    EarlyEviction(g, b, more);
  }

  /** Merging into an all-valid state is union of what the two sides received. */
  lemma MergeIsUnion(g: Game, m: Records, other: Records)
    requires g.Sound() && Keyed(g, m) && AllValid(g, m) && Keyed(g, other)
    ensures Merged(g, m, other) == StateOf(g, m.Values + other.Values)
  {
    ValidIsJoin(g, m);
    var joined := AbsorbedState(g, m, other);
    forall r | r in m.Values + other.Values && g.Verify(r)
      ensures g.Id(r) in joined && joined[g.Id(r)].sig <= r.sig
    {
      if r in other.Values {
        var id :| id in other && other[id] == r;
      }
    }
    assert IsJoin(g, joined, m.Values + other.Values);
    IsTheJoin(g, joined, m.Values + other.Values);
  }

  lemma ApplyIsUnion(g: Game, m: Records, delta: seq<Record>)
    requires g.Sound() && Keyed(g, m) && AllValid(g, m)
    ensures Applied(g, m, delta) == StateOf(g, m.Values + Members(delta))
  {
    ValidIsJoin(g, m);
    AbsorbAllJoins(g, m, m.Values, delta);
    IsTheJoin(g, AbsorbedAll(g, m, delta), m.Values + Members(delta));
  }

  lemma {:induction false} AbsorbAllJoins(g: Game, m: Records, recs: set<Record>, delta: seq<Record>)
    requires IsJoin(g, m, recs)
    ensures IsJoin(g, AbsorbedAll(g, m, delta), recs + Members(delta))
  {
    if delta == [] {
      assert recs + Members(delta) == recs;
    } else {
      var n := |delta| - 1;
      AbsorbAllJoins(g, m, recs, delta[..n]);
      AbsorbJoins(g, AbsorbedAll(g, m, delta[..n]), recs + Members(delta[..n]), delta[n]);
      MembersLast(delta);
      UnionAssociates(recs, Members(delta[..n]), {delta[n]});
    }
  }

  /** Merging into the state of `recs` adds the other side's records to what was received. */
  lemma MergeIntoState(g: Game, recs: set<Record>, other: Records)
    requires g.Sound() && Keyed(g, other)
    ensures Merged(g, StateOf(g, recs), other) == StateOf(g, recs + other.Values)
  {
    StateOfNormal(g, recs);
    MergeIsUnion(g, StateOf(g, recs), other);
    EarlyEviction(g, recs, other.Values);
  }

  lemma MergeFromState(g: Game, m: Records, recs: set<Record>)
    requires g.Sound() && Keyed(g, m) && AllValid(g, m)
    ensures Merged(g, m, StateOf(g, recs)) == StateOf(g, m.Values + recs)
  {
    StateOfNormal(g, recs);
    MergeIsUnion(g, m, StateOf(g, recs));
    EarlyEviction(g, recs, m.Values);
    UnionCommutes(StateOf(g, recs).Values, m.Values);
    UnionCommutes(recs, m.Values);
  }

  lemma ApplyToState(g: Game, recs: set<Record>, delta: seq<Record>)
    requires g.Sound()
    ensures Applied(g, StateOf(g, recs), delta) == StateOf(g, recs + Members(delta))
  {
    StateOfNormal(g, recs);
    ApplyIsUnion(g, StateOf(g, recs), delta);
    EarlyEviction(g, recs, Members(delta));
  }

  // ---- The monoid ----

  lemma MergeCommutes(g: Game, a: Records, b: Records)
    requires g.Sound() && Keyed(g, a) && AllValid(g, a) && Keyed(g, b) && AllValid(g, b)
    ensures Merged(g, a, b) == Merged(g, b, a)
  {
    MergeIsUnion(g, a, b);
    MergeIsUnion(g, b, a);
    UnionCommutes(a.Values, b.Values);
  }

  lemma MergeAssociates(g: Game, a: Records, b: Records, c: Records)
    requires g.Sound() && Keyed(g, a) && AllValid(g, a) && Keyed(g, b) && AllValid(g, b) && Keyed(g, c)
    ensures Merged(g, Merged(g, a, b), c) == Merged(g, a, Merged(g, b, c))
  {
    MergeIsUnion(g, a, b);
    MergeIsUnion(g, b, c);
    MergeIntoState(g, a.Values + b.Values, c);
    MergeFromState(g, a, b.Values + c.Values);
    UnionAssociates(a.Values, b.Values, c.Values);
  }

  lemma MergeIdempotent(g: Game, a: Records)
    requires g.Sound() && Normal(g, a)
    ensures Merged(g, a, a) == a
  {
    NormalIsStateOf(g, a);
    MergeIsUnion(g, a, a);
    UnionAbsorbs(a.Values, a.Values);
  }

  lemma MergeIdentity(g: Game, a: Records)
    requires g.Sound() && Normal(g, a)
    ensures Merged(g, a, map[]) == a && Merged(g, map[], a) == a
  {
    var none: Records := map[];
    NormalIsStateOf(g, a);
    MergeIsUnion(g, a, none);
    MergeIsUnion(g, none, a);
    assert none.Values == {};
    UnionAbsorbs(a.Values, {});
  }

  /** A merge lands among the valid, within-K states and has absorbed both sides for good. */
  lemma MergeDominates(g: Game, a: Records, b: Records)
    requires g.Sound() && Keyed(g, a) && AllValid(g, a) && Keyed(g, b)
    ensures Normal(g, Merged(g, a, b))
    ensures Merged(g, Merged(g, a, b), b) == Merged(g, a, b)
    ensures Merged(g, Merged(g, a, b), a) == Merged(g, a, b)
  {
    var ab := a.Values + b.Values;
    MergeIsUnion(g, a, b);
    StateOfNormal(g, ab);
    MergeIntoState(g, ab, b);
    MergeIntoState(g, ab, a);
    UnionAbsorbs(ab, b.Values);
    UnionAbsorbs(ab, a.Values);
  }
}
