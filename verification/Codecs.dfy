/** The two packed encodings (common/src/state.rs): a state as a bare sequence of records in id
    order, and a summary as one buffer of 64-byte `id, digest` entries in id order. */
module Codecs {
  import opened Types
  import opened Finite
  import opened State

  // ---- States ----

  ghost predicate DistinctIds(g: Game, recs: seq<Record>) {
    forall i, j | 0 <= i < j < |recs| :: g.Id(recs[i]) != g.Id(recs[j])
  }

  /** `m` holds exactly `recs`, each under its own id. */
  ghost predicate Holds(g: Game, m: Records, recs: seq<Record>) {
    && Keyed(g, m)
    && (forall i | 0 <= i < |recs| :: g.Id(recs[i]) in m && m[g.Id(recs[i])] == recs[i])
    && (forall id | id in m :: m[id] in recs)
  }

  method EncodeState(g: Game, m: Records) returns (recs: seq<Record>)
    requires Keyed(g, m)
    ensures Holds(g, m, recs) && |recs| == |m|
    ensures forall i, j | 0 <= i < j < |recs| :: g.Id(recs[i]) < g.Id(recs[j])
  {
    var ids := InOrder(m.Keys);
    recs := [];
    for i := 0 to |ids|
      invariant |recs| == i
      invariant forall j | 0 <= j < i :: ids[j] in m && recs[j] == m[ids[j]]
    {
      assert ids[i] in ids;
      recs := recs + [m[ids[i]]];
    }
    forall id | id in m ensures m[id] in recs {
      var i :| 0 <= i < |ids| && ids[i] == id;
      assert recs[i] == m[id];
    }
    ListingSize(ids, m.Keys);
  }

  /** Refuses a sequence that repeats an id. */
  method DecodeState(g: Game, recs: seq<Record>) returns (out: Option<Records>)
    ensures out.Some? <==> DistinctIds(g, recs)
    ensures out.Some? ==> Holds(g, out.value, recs)
  {
    var m: Records := map[];
    for i := 0 to |recs|
      invariant DistinctIds(g, recs[..i]) && Holds(g, m, recs[..i])
    {
      var id := g.Id(recs[i]);
      assert recs[..i + 1] == recs[..i] + [recs[i]];
      if id in m {
        assert m[id] in recs[..i];
        return None;
      }
      m := m[id := recs[i]];
    }
    assert recs[..|recs|] == recs;
    out := Some(m);
  }

  /** Whatever an encoded state decodes to is that state. */
  lemma StateRoundTrip(g: Game, m: Records, recs: seq<Record>, n: Records)
    requires Holds(g, m, recs) && Holds(g, n, recs)
    ensures m == n
  {
    forall id | id in m ensures id in n && n[id] == m[id] {
      var i :| 0 <= i < |recs| && recs[i] == m[id];
      assert g.Id(recs[i]) == id;
    }
    forall id | id in n ensures id in m {
      var i :| 0 <= i < |recs| && recs[i] == n[id];
      assert g.Id(recs[i]) == id;
    }
  }

  lemma HoldsValues(g: Game, m: Records, recs: seq<Record>)
    requires Holds(g, m, recs)
    ensures m.Values == Members(recs)
  {
    forall r | r in Members(recs) ensures r in m.Values {
      var i :| 0 <= i < |recs| && recs[i] == r;
      assert m[g.Id(recs[i])] == r;
    }
  }

  // ---- Big-endian numbers ----

  type Byte = n: nat | n < 256

  function Span(k: nat): nat {
    if k == 0 then 1 else 256 * Span(k - 1)
  }

  function Digits(n: nat, k: nat): (bytes: seq<Byte>)
    ensures |bytes| == k
    decreases k
  {
    if k == 0 then [] else Digits(n / 256, k - 1) + [n % 256]
  }

  function Number(bytes: seq<Byte>): (n: nat)
    ensures n < Span(|bytes|)
  {
    if bytes == [] then 0 else Number(bytes[..|bytes| - 1]) * 256 + bytes[|bytes| - 1]
  }

  lemma {:induction false} NumberOfDigits(n: nat, k: nat)
    requires n < Span(k)
    ensures Number(Digits(n, k)) == n
    decreases k
  {
    if k > 0 {
      NumberOfDigits(n / 256, k - 1);
      assert Digits(n, k)[..k - 1] == Digits(n / 256, k - 1);
    }
  }

  lemma {:induction false} DigitsOfNumber(bytes: seq<Byte>)
    ensures Digits(Number(bytes), |bytes|) == bytes
  {
    if bytes != [] {
      DigitsOfNumber(bytes[..|bytes| - 1]);
      assert bytes == bytes[..|bytes| - 1] + [bytes[|bytes| - 1]];
    }
  }

  // ---- Summaries ----

  const ENTRY: nat := 64
  const HALF: nat := 32

  predicate Aligned(buf: seq<Byte>) {
    |buf| % ENTRY == 0
  }

  function IdAt(buf: seq<Byte>, i: nat): RecordId
    requires ENTRY * (i + 1) <= |buf|
  {
    Number(buf[ENTRY * i..ENTRY * i + HALF])
  }

  function DigestAt(buf: seq<Byte>, i: nat): Digest
    requires ENTRY * (i + 1) <= |buf|
  {
    Number(buf[ENTRY * i + HALF..ENTRY * i + ENTRY])
  }

  ghost function IdsOf(buf: seq<Byte>): seq<RecordId> {
    seq(|buf| / ENTRY, i requires 0 <= i < |buf| / ENTRY => IdAt(buf, i))
  }

  ghost function DigestsOf(buf: seq<Byte>): seq<Digest> {
    seq(|buf| / ENTRY, i requires 0 <= i < |buf| / ENTRY => DigestAt(buf, i))
  }

  /** Ids and digests are 32 bytes. */
  ghost predicate Fits(m: Summary) {
    forall id | id in m :: id < Span(HALF) && m[id] < Span(HALF)
  }

  predicate Distinct(ids: seq<RecordId>) {
    forall i, j | 0 <= i < j < |ids| :: ids[i] != ids[j]
  }

  /** The first `n` pairs are the map's entries, one each. */
  ghost predicate Pairs(ids: seq<RecordId>, digests: seq<Digest>, m: Summary, n: nat) {
    && n <= |ids| == |digests|
    && Distinct(ids[..n])
    && (forall i | 0 <= i < n :: ids[i] in m && m[ids[i]] == digests[i])
    && (forall id | id in m :: id in ids[..n])
  }

  /** The buffer's entries are the map's, one each. */
  ghost predicate Entries(buf: seq<Byte>, m: Summary) {
    Aligned(buf) && Pairs(IdsOf(buf), DigestsOf(buf), m, |IdsOf(buf)|)
  }

  ghost predicate PackedUpTo(buf: seq<Byte>, ids: seq<RecordId>, m: Summary, n: nat) {
    && |buf| == ENTRY * n && n <= |ids|
    && forall j | 0 <= j < n :: ids[j] in m && IdAt(buf, j) == ids[j] && DigestAt(buf, j) == m[ids[j]]
  }

  method Pack(m: Summary) returns (buf: seq<Byte>)
    requires Fits(m)
    ensures |buf| == ENTRY * |m| && Entries(buf, m) && StrictlyAscending(IdsOf(buf))
  {
    var ids := InOrder(m.Keys);
    buf := [];
    for i := 0 to |ids|
      invariant PackedUpTo(buf, ids, m, i)
    {
      assert ids[i] in ids;
      PackStep(buf, ids, m, i);
      buf := buf + Digits(ids[i], HALF) + Digits(m[ids[i]], HALF);
    }
    PackedIsEntries(buf, ids, m);
  }

  lemma PackStep(buf: seq<Byte>, ids: seq<RecordId>, m: Summary, i: nat)
    requires PackedUpTo(buf, ids, m, i) && i < |ids| && ids[i] in m && Fits(m)
    ensures PackedUpTo(buf + Digits(ids[i], HALF) + Digits(m[ids[i]], HALF), ids, m, i + 1)
  {
    AppendEntry(buf, i, ids[i], m[ids[i]]);
  }

  lemma PackedIsEntries(buf: seq<Byte>, ids: seq<RecordId>, m: Summary)
    requires Lists(ids, m.Keys) && PackedUpTo(buf, ids, m, |ids|)
    ensures |buf| == ENTRY * |m| && Entries(buf, m) && StrictlyAscending(IdsOf(buf))
  {
    ListingSize(ids, m.Keys);
    assert IdsOf(buf) == ids;
    assert ids[..|ids|] == ids;
  }

  /** Refuses a buffer that is not whole entries or repeats an id. */
  method Unpack(buf: seq<Byte>) returns (out: Option<Summary>)
    ensures out.Some? <==> Aligned(buf) && Distinct(IdsOf(buf))
    ensures out.Some? ==> Entries(buf, out.value)
  {
    if |buf| % ENTRY != 0 {
      return None;
    }
    var m: Summary := map[];
    ghost var ids, digests := IdsOf(buf), DigestsOf(buf);
    for k := 0 to |buf| / ENTRY
      invariant Pairs(ids, digests, m, k)
    {
      var id := IdAt(buf, k);
      assert id == ids[k];
      if id in m {
        assert id in ids[..k];
        return None;
      }
      PairsStep(ids, digests, m, k);
      m := m[id := DigestAt(buf, k)];
    }
    assert ids[..|ids|] == ids;
    out := Some(m);
  }

  lemma PairsStep(ids: seq<RecordId>, digests: seq<Digest>, m: Summary, k: nat)
    requires Pairs(ids, digests, m, k) && k < |ids| && ids[k] !in m
    ensures Pairs(ids, digests, m[ids[k] := digests[k]], k + 1)
  {
    assert ids[..k + 1] == ids[..k] + [ids[k]];
  }

  lemma AppendEntry(buf: seq<Byte>, i: nat, id: RecordId, digest: Digest)
    requires |buf| == ENTRY * i && id < Span(HALF) && digest < Span(HALF)
    ensures var longer := buf + Digits(id, HALF) + Digits(digest, HALF);
            && IdAt(longer, i) == id && DigestAt(longer, i) == digest
            && forall j | 0 <= j < i :: IdAt(longer, j) == IdAt(buf, j) && DigestAt(longer, j) == DigestAt(buf, j)
  {
    var longer := buf + Digits(id, HALF) + Digits(digest, HALF);
    assert longer[ENTRY * i..ENTRY * i + HALF] == Digits(id, HALF);
    assert longer[ENTRY * i + HALF..ENTRY * i + ENTRY] == Digits(digest, HALF);
    NumberOfDigits(id, HALF);
    NumberOfDigits(digest, HALF);
    forall j | 0 <= j < i ensures IdAt(longer, j) == IdAt(buf, j) && DigestAt(longer, j) == DigestAt(buf, j) {
      EarlierEntry(buf, longer, j);
    }
  }

  lemma EarlierEntry(buf: seq<Byte>, longer: seq<Byte>, j: nat)
    requires buf <= longer && ENTRY * (j + 1) <= |buf|
    ensures IdAt(longer, j) == IdAt(buf, j) && DigestAt(longer, j) == DigestAt(buf, j)
  {
    assert longer[ENTRY * j..ENTRY * j + HALF] == buf[ENTRY * j..ENTRY * j + HALF];
    assert longer[ENTRY * j + HALF..ENTRY * j + ENTRY] == buf[ENTRY * j + HALF..ENTRY * j + ENTRY];
  }

  /** Unpacking recovers the map: a buffer has at most one map. */
  lemma UnpackUnique(buf: seq<Byte>, m: Summary, n: Summary)
    requires Entries(buf, m) && Entries(buf, n)
    ensures m == n
  {
    var ids := IdsOf(buf);
    assert ids[..|ids|] == ids;
    forall id | id in m ensures id in n && n[id] == m[id] {
      var i :| 0 <= i < |ids| && ids[i] == id;
    }
    forall id | id in n ensures id in m {
      var i :| 0 <= i < |ids| && ids[i] == id;
    }
  }

  /** Repacking what a buffer unpacks to gives the buffer back exactly when its ids ascend. */
  lemma RepackIsIdentityIff(buf: seq<Byte>, m: Summary, again: seq<Byte>)
    requires Entries(buf, m)
    requires Entries(again, m) && StrictlyAscending(IdsOf(again))
    ensures again == buf <==> StrictlyAscending(IdsOf(buf))
  {
    if StrictlyAscending(IdsOf(buf)) {
      IdsAreKeys(buf, m);
      IdsAreKeys(again, m);
      ListingUnique(IdsOf(buf), IdsOf(again), m.Keys);
      assert |buf| == |again|;
      forall i | 0 <= i < |buf| / ENTRY ensures EntryAt(buf, i) == EntryAt(again, i) {
        assert IdsOf(buf)[i] == IdsOf(again)[i];
        assert DigestsOf(buf)[i] == DigestsOf(again)[i];
        EntryIsDigits(buf, i);
        EntryIsDigits(again, i);
      }
      SameEntries(buf, again, |buf| / ENTRY);
    }
  }

  lemma IdsAreKeys(buf: seq<Byte>, m: Summary)
    requires Entries(buf, m) && StrictlyAscending(IdsOf(buf))
    ensures Lists(IdsOf(buf), m.Keys)
  {
    var ids := IdsOf(buf);
    assert ids[..|ids|] == ids;
    forall x ensures x in ids <==> x in m.Keys {
      if x in ids {
        var i :| 0 <= i < |ids| && ids[i] == x;
      }
    }
  }

  ghost function EntryAt(buf: seq<Byte>, i: nat): seq<Byte>
    requires ENTRY * (i + 1) <= |buf|
  {
    buf[ENTRY * i..ENTRY * i + ENTRY]
  }

  lemma EntryIsDigits(buf: seq<Byte>, i: nat)
    requires ENTRY * (i + 1) <= |buf|
    ensures EntryAt(buf, i) == Digits(IdAt(buf, i), HALF) + Digits(DigestAt(buf, i), HALF)
  {
    var id, digest := buf[ENTRY * i..ENTRY * i + HALF], buf[ENTRY * i + HALF..ENTRY * i + ENTRY];
    DigitsOfNumber(id);
    DigitsOfNumber(digest);
    SplitAt(buf, ENTRY * i, HALF, ENTRY);
    assert |id| == HALF && |digest| == HALF;
  }

  lemma SplitAt(buf: seq<Byte>, from: nat, half: nat, whole: nat)
    requires half <= whole && from + whole <= |buf|
    ensures buf[from..from + whole] == buf[from..from + half] + buf[from + half..from + whole]
  {
  }

  lemma {:induction false} SameEntries(a: seq<Byte>, b: seq<Byte>, n: nat)
    requires |a| == |b| == ENTRY * n
    requires forall i | 0 <= i < n :: EntryAt(a, i) == EntryAt(b, i)
    ensures a == b
  {
    if n > 0 {
      var cut := ENTRY * (n - 1);
      forall i | 0 <= i < n - 1 ensures EntryAt(a[..cut], i) == EntryAt(b[..cut], i) {
        assert EntryAt(a[..cut], i) == EntryAt(a, i);
        assert EntryAt(b[..cut], i) == EntryAt(b, i);
      }
      SameEntries(a[..cut], b[..cut], n - 1);
      assert a == a[..cut] + EntryAt(a, n - 1);
      assert b == b[..cut] + EntryAt(b, n - 1);
    }
  }
}
