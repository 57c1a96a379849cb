/** Eviction on bare identifiers: keep the K smallest of every group, and every `Resign`
    (common/src/state.rs, `evict`). */
module TopK {
  import opened Types
  import opened Finite

  /** The members of `s` in the group of `id` that sort below it. */
  ghost function Rivals(g: Game, s: set<RecordId>, id: RecordId): set<RecordId> {
    set j | j in s && j < id && g.GroupOf(j) == g.GroupOf(id)
  }

  ghost predicate Survives(g: Game, s: set<RecordId>, id: RecordId) {
    g.GroupOf(id).Some? ==> |Rivals(g, s, id)| < g.GroupOf(id).value.kind.K()
  }

  ghost function Top(g: Game, s: set<RecordId>): set<RecordId> {
    set id | id in s && Survives(g, s, id)
  }

  /** Competition only grows with the set. */
  lemma SurvivesInSubset(g: Game, s: set<RecordId>, t: set<RecordId>, id: RecordId)
    requires s <= t && Survives(g, t, id)
    ensures Survives(g, s, id)
  {
    SubsetSize(Rivals(g, s, id), Rivals(g, t, id));
  }

  /** An evicted identifier has K survivors below it. */
  lemma EvictedHasRivals(g: Game, t: set<RecordId>, id: RecordId) returns (low: set<RecordId>)
    requires g.GroupOf(id).Some? && !Survives(g, t, id)
    ensures low <= Rivals(g, t, id) && low <= Top(g, t)
    ensures |low| == g.GroupOf(id).value.kind.K()
  {
    var rivals := Rivals(g, t, id);
    low := Lowest(rivals, g.GroupOf(id).value.kind.K());
    forall x | x in low ensures x in Top(g, t) {
      assert Rivals(g, t, x) == Under(rivals, x);
    }
  }

  /** Top-K distributes over union: evicting early changes nothing. */
  lemma TopOfUnion(g: Game, a: set<RecordId>, b: set<RecordId>)
    ensures Top(g, Top(g, a) + b) == Top(g, a + b)
  {
    var t, u := a + b, Top(g, a) + b;
    forall id | id in Top(g, t) ensures id in Top(g, u) {
      if id in a {
        SurvivesInSubset(g, a, t, id);
      }
      SurvivesInSubset(g, u, t, id);
    }
    forall id | id in Top(g, u) ensures id in Top(g, t) {
      if !Survives(g, t, id) {
        var low := EvictedHasRivals(g, t, id);
        forall x | x in low ensures x in Rivals(g, u, id) {
          if x in a {
            SurvivesInSubset(g, a, t, x);
          }
        }
        SubsetSize(low, Rivals(g, u, id));
      }
    }
  }

  lemma TopOfUnions(g: Game, a: set<RecordId>, b: set<RecordId>)
    ensures Top(g, Top(g, a) + Top(g, b)) == Top(g, a + b)
  {
    TopOfUnion(g, a, Top(g, b));
    TopOfUnion(g, b, a);
    assert Top(g, b) + a == a + Top(g, b) && b + a == a + b;
  }

  lemma TopIdempotent(g: Game, s: set<RecordId>)
    ensures Top(g, Top(g, s)) == Top(g, s)
  {
    TopOfUnion(g, s, {});
    assert Top(g, s) + {} == Top(g, s) && s + {} == s;
  }

  ghost function InGroup(g: Game, s: set<RecordId>, group: Group): set<RecordId> {
    set id | id in s && g.GroupOf(id) == Some(group)
  }

  /** Eviction FLOORS a group: it keeps exactly the smaller of its size and K. */
  lemma GroupFloor(g: Game, s: set<RecordId>, group: Group)
    ensures |InGroup(g, Top(g, s), group)| ==
            if |InGroup(g, s, group)| < group.kind.K() then |InGroup(g, s, group)| else group.kind.K()
  {
    var all, kept, k := InGroup(g, s, group), InGroup(g, Top(g, s), group), group.kind.K();
    SubsetSize(kept, all);
    if kept != all {
      var id :| id in all && id !in kept;
      var low := EvictedHasRivals(g, s, id);
      SubsetSize(low, kept);
      SubsetSize(low, all);
    }
    if |kept| > k {
      var top := LargestExists(kept);
      assert kept - {top} <= Rivals(g, s, top);
      SubsetSize(kept - {top}, Rivals(g, s, top));
    }
  }
}
