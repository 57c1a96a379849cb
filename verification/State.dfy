/** The contract state and its algebra (common/src/state.rs).

    The class is the source's mutable `GameState`; each method is tied to a function on the
    record map, and the laws are proved about those functions. */
module State {
  import opened Types
  import opened Finite

  type Records = map<RecordId, Record>

  /** Every record sits under its own content id. */
  ghost predicate Keyed(g: Game, m: Records) {
    forall id | id in m :: g.Id(m[id]) == id
  }

  ghost predicate AllValid(g: Game, m: Records) {
    forall id | id in m :: g.Verify(m[id])
  }

  /** In one slot a verified record displaces an unverified one, and the smaller of two
      verified signatures wins. */
  predicate Displaces(g: Game, m: Records, rec: Record) {
    var id := g.Id(rec);
    g.Verify(rec) && (id !in m || !g.Verify(m[id]) || rec.sig < m[id].sig)
  }

  function Absorbed(g: Game, m: Records, rec: Record): Records {
    if Displaces(g, m, rec) then m[g.Id(rec) := rec] else m
  }

  ghost function AbsorbedAll(g: Game, m: Records, recs: seq<Record>): Records {
    if recs == [] then m else
      Absorbed(g, AbsorbedAll(g, m, recs[..|recs| - 1]), recs[|recs| - 1])
  }

  /** Absorbing every record of another state, slot by slot. */
  ghost function AbsorbedState(g: Game, m: Records, other: Records): Records {
    map id | id in m.Keys + other.Keys && (id in m || g.Verify(other[id])) ::
      if id in other && Displaces(g, m, other[id]) then other[id] else
      if id in m then m[id] else other[id]
  }

  function GroupIn(m: Records, id: RecordId): Option<Group>
    requires id in m
  {
    m[id].Says().GroupOf()
  }

  ghost function GroupIds(m: Records, group: Group): set<RecordId> {
    set id | id in m && GroupIn(m, id) == Some(group)
  }

  /** Fewer than K records of its group have smaller ids. */
  ghost predicate Kept(m: Records, id: RecordId)
    requires id in m
  {
    GroupIn(m, id).Some? ==>
      |Under(GroupIds(m, GroupIn(m, id).value), id)| < GroupIn(m, id).value.kind.K()
  }

  ghost function Evicted(m: Records): Records {
    map id | id in m && Kept(m, id) :: m[id]
  }

  ghost function Merged(g: Game, m: Records, other: Records): Records {
    Evicted(AbsorbedState(g, m, other))
  }

  ghost function Applied(g: Game, m: Records, delta: seq<Record>): Records {
    Evicted(AbsorbedAll(g, m, delta))
  }

  ghost function Filtered(g: Game, m: Records): Records {
    Merged(g, map[], m)
  }

  type Summary = map<RecordId, Digest>

  function Summarized(g: Game, m: Records): Summary {
    map id | id in m :: g.digest(m[id].sig)
  }

  /** Is this record missing from the summary, or summarized under another signature? */
  predicate Offered(g: Game, m: Records, summary: Summary, id: RecordId)
    requires id in m
  {
    id !in summary || summary[id] != g.digest(m[id].sig)
  }

  /** `delta` lists, in id order, the records a peer with this summary should be sent. */
  ghost predicate IsDelta(g: Game, m: Records, summary: Summary, delta: seq<Record>) {
    && (forall i | 0 <= i < |delta| :: g.Id(delta[i]) in m && delta[i] == m[g.Id(delta[i])])
    && (forall i, j | 0 <= i < j < |delta| :: g.Id(delta[i]) < g.Id(delta[j]))
    && (forall id | id in m :: m[id] in delta <==> Offered(g, m, summary, id))
  }

  class GameState {
    var records: Records

    constructor Empty()
      ensures records == map[]
    {
      records := map[];
    }

    method Absorb(g: Game, rec: Record)
      requires g.Sound() && Keyed(g, records)
      modifies this
      ensures records == Absorbed(g, old(records), rec) && Keyed(g, records)
    {
      var id := g.Id(rec);
      if id in records && records[id].sig == rec.sig {
        SameSlot(g, records[id], rec);
        assert records == records[id := rec];
        return;
      }
      if !g.Verify(rec) {
        return;
      }
      if id in records && g.Verify(records[id]) && records[id].sig <= rec.sig {
        return;
      }
      records := records[id := rec];
    }

    /** Two passes: collect each group's ids in ascending order, then drop all but the first K. */
    method Evict()
      modifies this
      ensures records == Evicted(old(records))
    {
      var groups := CollectGroups(records);
      var pending := groups.Keys;
      assert records == PartlyEvicted(records, pending);
      while pending != {}
        invariant pending <= groups.Keys
        invariant records == PartlyEvicted(old(records), pending)
        decreases |pending|
      {
        var group :| group in pending;
        var ids, k := groups[group], group.kind.K();
        DropGroup(old(records), pending, group, ids);
        if |ids| > k {
          Drop(ids[k..]);
        }
        pending := pending - {group};
      }
      assert PartlyEvicted(old(records), {}) == Evicted(old(records));
    }

    method Drop(ids: seq<RecordId>)
      modifies this
      ensures records == old(records) - Members(ids)
    {
      for j := 0 to |ids|
        invariant records == old(records) - Members(ids[..j])
      {
        assert ids[..j + 1] == ids[..j] + [ids[j]];
        records := records - {ids[j]};
      }
      assert ids[..|ids|] == ids;
    }

    method Merge(g: Game, other: Records)
      requires g.Sound() && Keyed(g, records) && Keyed(g, other)
      modifies this
      ensures records == Merged(g, old(records), other) && Keyed(g, records)
    {
      AbsorbEach(g, other);
      Evict();
    }

    method AbsorbEach(g: Game, other: Records)
      requires g.Sound() && Keyed(g, records) && Keyed(g, other)
      modifies this
      ensures records == AbsorbedState(g, old(records), other) && Keyed(g, records)
    {
      var ids := InOrder(other.Keys);
      AbsorbNothing(g, records, other, ids);
      for i := 0 to |ids|
        invariant Keyed(g, records)
        invariant records == AbsorbedState(g, old(records), Restrict(other, ids[..i]))
      {
        AbsorbOneMore(g, old(records), other, ids, i);
        Absorb(g, other[ids[i]]);
      }
      RestrictAll(other, ids);
    }

    method ApplyDelta(g: Game, delta: seq<Record>)
      requires g.Sound() && Keyed(g, records)
      modifies this
      ensures records == Applied(g, old(records), delta) && Keyed(g, records)
    {
      for i := 0 to |delta|
        invariant Keyed(g, records) && records == AbsorbedAll(g, old(records), delta[..i])
      {
        assert delta[..i + 1][..i] == delta[..i];
        Absorb(g, delta[i]);
      }
      assert delta[..|delta|] == delta;
      Evict();
    }

    method InsertVerified(g: Game, rec: Record) returns (ok: bool)
      requires g.Sound() && Keyed(g, records)
      modifies this
      ensures records == Applied(g, old(records), [rec]) && Keyed(g, records)
      ensures ok <==> g.Genuine(rec)
      ensures !ok ==> records == Evicted(old(records))
    {
      GenuineIsVerified(g, rec);
      Absorb(g, rec);
      assert [rec][..0] == [];
      assert records == AbsorbedAll(g, old(records), [rec]);
      Evict();
      ok := g.Verify(rec);
    }

    method FilterValid(g: Game) returns (out: GameState)
      requires g.Sound() && Keyed(g, records)
      ensures fresh(out) && out.records == Filtered(g, records) && Keyed(g, out.records)
    {
      out := new GameState.Empty();
      out.Merge(g, records);
    }
  }

  /** Eviction with the groups in `pending` still untouched. */
  ghost function PartlyEvicted(m: Records, pending: set<Group>): Records {
    map id | id in m && (Waits(m, id, pending) || Kept(m, id)) :: m[id]
  }

  ghost predicate Waits(m: Records, id: RecordId, pending: set<Group>)
    requires id in m
  {
    GroupIn(m, id).Some? && GroupIn(m, id).value in pending
  }

  lemma DropGroup(m: Records, pending: set<Group>, group: Group, ids: seq<RecordId>)
    requires Lists(ids, GroupIds(m, group)) && group in pending
    ensures PartlyEvicted(m, pending - {group}) ==
            if |ids| > group.kind.K() then PartlyEvicted(m, pending) - Members(ids[group.kind.K()..])
            else PartlyEvicted(m, pending)
  {
    GroupCut(m, group, ids);
    if |ids| > group.kind.K() {
      var cut := Members(ids[group.kind.K()..]);
      forall id | id in m
        ensures id in PartlyEvicted(m, pending - {group}) <==> id in PartlyEvicted(m, pending) - cut
      {
        if id in cut {
          assert id in ids;
        }
      }
    }
  }

  /** First pass of eviction. */
  method CollectGroups(m: Records) returns (groups: map<Group, seq<RecordId>>)
    ensures forall group | group in groups :: Lists(groups[group], GroupIds(m, group))
    ensures forall id | id in m && GroupIn(m, id).Some? :: GroupIn(m, id).value in groups
  {
    groups := map[];
    var ids := InOrder(m.Keys);
    for i := 0 to |ids|
      invariant Collected(m, ids[..i], groups)
    {
      CollectStep(m, ids, i, groups);
      var here := GroupIn(m, ids[i]);
      if here.Some? {
        groups := groups[here.value := Collect(groups, here.value) + [ids[i]]];
      }
    }
    forall group | group in groups ensures Lists(groups[group], GroupIds(m, group)) {
      assert SeenIds(m, ids[..|ids|], group) == GroupIds(m, group);
    }
    forall id | id in m && GroupIn(m, id).Some? ensures GroupIn(m, id).value in groups {
      assert id in SeenIds(m, ids[..|ids|], GroupIn(m, id).value);
    }
  }

  function Collect(groups: map<Group, seq<RecordId>>, group: Group): seq<RecordId> {
    if group in groups then groups[group] else []
  }

  /** Every group met so far is listed, and no other. */
  ghost predicate Collected(m: Records, ids: seq<RecordId>, groups: map<Group, seq<RecordId>>) {
    forall group :: Lists(Collect(groups, group), SeenIds(m, ids, group))
  }

  lemma CollectStep(m: Records, ids: seq<RecordId>, i: nat, groups: map<Group, seq<RecordId>>)
    requires StrictlyAscending(ids) && i < |ids| && (forall id | id in ids :: id in m)
    requires Collected(m, ids[..i], groups)
    ensures ids[i] in m
    ensures var here := GroupIn(m, ids[i]);
            Collected(m, ids[..i + 1],
                      if here.None? then groups else groups[here.value := Collect(groups, here.value) + [ids[i]]])
  {
    assert ids[i] in ids;
    var here := GroupIn(m, ids[i]);
    var more := if here.None? then groups else groups[here.value := Collect(groups, here.value) + [ids[i]]];
    SeenOneMore(m, ids, i);
    forall group ensures Lists(Collect(more, group), SeenIds(m, ids[..i + 1], group)) {
      assert Lists(Collect(groups, group), SeenIds(m, ids[..i], group));
      if here == Some(group) {
        ListingGrows(Collect(groups, group), SeenIds(m, ids[..i], group), ids[i]);
      }
    }
  }

  lemma SeenOneMore(m: Records, ids: seq<RecordId>, i: nat)
    requires i < |ids| && ids[i] in m
    ensures forall group :: SeenIds(m, ids[..i + 1], group) ==
                            if GroupIn(m, ids[i]) == Some(group) then SeenIds(m, ids[..i], group) + {ids[i]}
                            else SeenIds(m, ids[..i], group)
  {
    assert ids[..i + 1] == ids[..i] + [ids[i]];
  }

  ghost function SeenIds(m: Records, ids: seq<RecordId>, group: Group): set<RecordId> {
    set id | id in ids && id in m && GroupIn(m, id) == Some(group)
  }

  /** The positions at or after K in a group's listing are exactly the evicted ones. */
  lemma GroupCut(m: Records, group: Group, ids: seq<RecordId>)
    requires Lists(ids, GroupIds(m, group))
    ensures |ids| <= group.kind.K() ==> forall id | id in GroupIds(m, group) :: Kept(m, id)
    ensures |ids| > group.kind.K() ==>
      forall id | id in GroupIds(m, group) :: Kept(m, id) <==> id !in Members(ids[group.kind.K()..])
    ensures Members(ids) == GroupIds(m, group)
  {
    var k := group.kind.K();
    forall id | id in GroupIds(m, group)
      ensures |ids| <= k ==> Kept(m, id)
      ensures |ids| > k ==> (Kept(m, id) <==> id !in Members(ids[k..]))
    {
      var i :| 0 <= i < |ids| && ids[i] == id;
      RankIsIndex(ids, GroupIds(m, group), i);
      if |ids| > k && id in ids[k..] {
        var j :| 0 <= j < |ids[k..]| && ids[k..][j] == id;
        assert ids[k + j] == id;
      }
      if |ids| > k && i >= k {
        assert ids[k..][i - k] == id;
      }
    }
  }

  ghost function Restrict(m: Records, ids: seq<RecordId>): Records {
    map id | id in m && id in ids :: m[id]
  }

  /** The same statement under the same signature is the same record. */
  lemma SameSlot(g: Game, a: Record, b: Record)
    requires g.Sound() && g.Id(a) == g.Id(b)
    ensures a.Says() == b.Says()
    ensures a.sig == b.sig ==> a == b
  {
    assert g.says(g.recordId(a.Says())) == a.Says();
    assert g.says(g.recordId(b.Says())) == b.Says();
  }

  lemma AbsorbNothing(g: Game, m: Records, other: Records, ids: seq<RecordId>)
    ensures AbsorbedState(g, m, Restrict(other, ids[..0])) == m
  {
  }

  lemma RestrictGrows(m: Records, ids: seq<RecordId>, i: nat)
    requires Lists(ids, m.Keys) && i < |ids|
    ensures ids[i] in m && forall id | id in Restrict(m, ids[..i]) :: id < ids[i]
    ensures Restrict(m, ids[..i + 1]) == Restrict(m, ids[..i])[ids[i] := m[ids[i]]]
  {
    assert ids[i] in ids;
    assert ids[..i + 1] == ids[..i] + [ids[i]];
  }

  lemma RestrictAll(m: Records, ids: seq<RecordId>)
    requires Lists(ids, m.Keys)
    ensures Restrict(m, ids[..|ids|]) == m
  {
  }

  lemma AbsorbOneMore(g: Game, m: Records, other: Records, ids: seq<RecordId>, i: nat)
    requires g.Sound() && Keyed(g, m) && Keyed(g, other) && Lists(ids, other.Keys) && i < |ids|
    ensures ids[i] in other
    ensures AbsorbedState(g, m, Restrict(other, ids[..i + 1])) ==
            Absorbed(g, AbsorbedState(g, m, Restrict(other, ids[..i])), other[ids[i]])
  {
    RestrictGrows(other, ids, i);
    AbsorbFresh(g, m, Restrict(other, ids[..i]), other[ids[i]]);
  }

  lemma AbsorbFresh(g: Game, m: Records, other: Records, rec: Record)
    requires g.Id(rec) !in other
    ensures AbsorbedState(g, m, other[g.Id(rec) := rec]) == Absorbed(g, AbsorbedState(g, m, other), rec)
  {
    var id := g.Id(rec);
    var before, after := AbsorbedState(g, m, other), AbsorbedState(g, m, other[id := rec]);
    forall j | j != id ensures j in before <==> j in after
                       ensures j in before ==> before[j] == after[j]
    {
    }
    assert id in before <==> id in m;
  }
}
