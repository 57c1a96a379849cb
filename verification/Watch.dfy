/** Following a game (client/src/session.rs, `watch_label`) on a network others keep writing to. */
module Watch {
  import opened Types
  import opened Finite
  import opened TopK
  import opened State
  import opened Algebra
  import opened Chess
  import opened Project
  import opened Finality
  import opened Network

  // ---- What the watcher says ----

  /** The board last reported is the board of these records. */
  ghost predicate Shown(g: Game, r: Rules, reports: seq<Status>, keys: set<RecordId>) {
    reports != [] && reports[|reports| - 1].chain == ChainOf(g, r, keys)
  }

  /** So is the verdict, and `over` says whether there is one. */
  ghost predicate Judged(g: Game, r: Rules, reports: seq<Status>, over: bool, keys: set<RecordId>) {
    && reports != [] && reports[|reports| - 1].decision == Verdict(g, r, keys)
    && (over <==> Verdict(g, r, keys).Some?)
  }

  /** How the reports stand to what is held. `read` is what the game was opened with: until there is a
      second report the first one speaks of that, and as many records are held. */
  ghost predicate Accounted(g: Game, r: Rules, reports: seq<Status>, over: bool, read: Records, held: Records) {
    && reports != []
    && if |reports| > 1 then Shown(g, r, reports, held.Keys) && Judged(g, r, reports, over, held.Keys)
       else Shown(g, r, reports, read.Keys) && Judged(g, r, reports, over, read.Keys)
            && |read| == |held| && Later(g, read.Keys, held.Keys)
  }

  /** So a sole report of an undecided game may be out of date. Its board is, exactly when the merge
      that kept the number of records brought a continuation or a fraud; its verdict is, exactly when
      the merge decided the game. A base within K leaves only a claim or an agreement to miss. */
  lemma SoleReport(g: Game, r: Rules, reports: seq<Status>, read: Records, held: Records)
    requires g.Sound() && Keyed(g, read) && |reports| == 1 && Accounted(g, r, reports, false, read, held)
    ensures Shown(g, r, reports, held.Keys) <==> BoardStays(g, r, read.Keys, held.Keys)
    ensures Judged(g, r, reports, false, held.Keys) <==> VerdictStays(g, r, read.Keys, held.Keys)
    ensures Normal(g, read) ==>
      && Shown(g, r, reports, held.Keys)
      && (Judged(g, r, reports, false, held.Keys) <==> !StatedDraw(g, r, held.Keys, ChainOf(g, r, read.Keys)))
  {
    BoardStaysIff(g, r, read.Keys, held.Keys);
    VerdictStaysIff(g, r, read.Keys, held.Keys);
    if Normal(g, read) {
      EvictedIsTop(g, read);
      var x := LaterBy(g, read.Keys, held.Keys);
      assert |read| == |read.Keys| && |held| == |held.Keys|;
      SameSizeVerdictIff(g, r, read.Keys, x);
    }
  }

  // ---- Skew ----

  datatype Skew = Warning | Resolved

  /** Does the previous contract hold a record, not ours, that the current one lacks? */
  predicate OpponentMovedOnPrevious(current: Records, previous: Records, ours: Key) {
    exists id :: id in previous && previous[id].signer != ours && id !in current
  }

  /** Would bringing this record over change what is held? */
  ghost predicate Missed(g: Game, current: Records, rec: Record) {
    StateOf(g, current.Values + {rec}) != current
  }

  /** The records a warning is about. */
  ghost function Ahead(current: Records, previous: Records, ours: Key): set<RecordId> {
    set id | id in previous && previous[id].signer != ours && id !in current
  }

  /** A warning says the opponent moved where we no longer play. Such a record is really missed here
      exactly when it has fewer than K rivals here. One that eviction dropped keeps the warning up,
      and for it the warning is false. */
  lemma WarningIsTrueIff(g: Game, current: Records, previous: Records, ours: Key)
    requires g.Sound() && Normal(g, current) && Authentic(g, previous)
    ensures OpponentMovedOnPrevious(current, previous, ours) <==> Ahead(current, previous, ours) != {}
    ensures forall id | id in Ahead(current, previous, ours) ::
              Missed(g, current, previous[id]) <==> Survives(g, current.Keys + {id}, id)
  {
    forall id | id in Ahead(current, previous, ours)
      ensures Missed(g, current, previous[id]) <==> Survives(g, current.Keys + {id}, id)
    {
      MissedIff(g, current, previous[id]);
    }
    if OpponentMovedOnPrevious(current, previous, ours) {
      var id :| id in previous && previous[id].signer != ours && id !in current;
      assert id in Ahead(current, previous, ours);
    }
  }

  lemma MissedIff(g: Game, current: Records, rec: Record)
    requires g.Sound() && Normal(g, current) && g.Verify(rec) && g.Id(rec) !in current
    ensures Missed(g, current, rec) <==> Survives(g, current.Keys + {g.Id(rec)}, g.Id(rec))
  {
    var id, more := g.Id(rec), current[g.Id(rec) := rec];
    OneMoreRecord(g, current, rec);
    EvictedIsTop(g, more);
    if !Survives(g, more.Keys, id) {
      EvictedIsTop(g, current);
      DroppedAlone(g, current.Keys, id);
      SameEvicted(g, current, more);
    }
  }

  lemma OneMoreRecord(g: Game, current: Records, rec: Record)
    requires g.Sound() && Normal(g, current) && g.Verify(rec) && g.Id(rec) !in current
    ensures var more := current[g.Id(rec) := rec];
            && Authentic(g, more) && more.Keys == current.Keys + {g.Id(rec)}
            && StateOf(g, current.Values + {rec}) == Evicted(more)
  {
    var more := current[g.Id(rec) := rec];
    forall r | r in current.Values ensures r in more.Values {
      var id :| id in current && current[id] == r;
      assert more[id] == r;
    }
    assert rec == more[g.Id(rec)];
    assert more.Values == current.Values + {rec};
    NormalKeys(g, more);
  }

  /** An id that its set keeps out displaces nobody. */
  lemma DroppedAlone(g: Game, s: set<RecordId>, id: RecordId)
    requires Top(g, s) == s && id !in s && !Survives(g, s + {id}, id)
    ensures Top(g, s + {id}) == s
  {
    forall x | x in s ensures Survives(g, s + {id}, x) {
      assert Survives(g, s, x);
      if g.GroupOf(x).Some? && g.GroupOf(x) == g.GroupOf(id) && id < x {
        assert Rivals(g, s + {id}, id) <= Rivals(g, s, x);
        SubsetSize(Rivals(g, s + {id}, id), Rivals(g, s, x));
      } else {
        assert Rivals(g, s + {id}, x) == Rivals(g, s, x) || g.GroupOf(x).None?;
      }
    }
  }

  /** Callbacks alternate, starting with a warning, and the flag says which came last. */
  ghost predicate Alternates(calls: seq<Skew>, skewed: bool) {
    && (forall i | 0 <= i < |calls| :: calls[i] == if i % 2 == 0 then Warning else Resolved)
    && (skewed <==> |calls| % 2 == 1)
  }

  /** How a GET of the previous contract goes: an error, bytes that do not decode, or an answer. An
      empty state may be stored as no bytes at all, which says nothing, or encoded. */
  datatype Reply = Unanswered | Garbled | Answered(emptyIsEncoded: bool)

  /** What asking for the previous contract leaves of what was known of it, and whether to ask again. */
  ghost function Refreshed(was: Option<Records>, gone: bool, reply: Reply, contracts: map<ContractId, Records>,
                           earlier: ContractId): (Option<Records>, bool)
  {
    if gone then (was, true) else
      match reply
      case Unanswered => (was, true)
      case Garbled => (was, earlier in contracts)
      case Answered(encoded) =>
        var told := earlier in contracts && (contracts[earlier] != map[] || encoded);
        (if told then Some(contracts[earlier]) else was, false)
  }

  /** An answer with records replaces what was known; nothing else does, save an empty state that is
      encoded. Whoever failed to answer, or answered what does not decode, is not asked again. */
  lemma RefreshedMeans(was: Option<Records>, gone: bool, reply: Reply, contracts: map<ContractId, Records>,
                       earlier: ContractId)
    ensures var (known, gone') := Refreshed(was, gone, reply, contracts, earlier);
            && (gone' <==> gone || reply == Unanswered || (reply == Garbled && earlier in contracts))
            && (!gone' && earlier in contracts && (contracts[earlier] != map[] || reply == Answered(true)) ==>
                known == Some(contracts[earlier]))
            && (gone' || earlier !in contracts || (contracts[earlier] == map[] && reply == Answered(false)) ==>
                known == was)
  {
  }

  /** The cursor moved on to just behind an entry about `id`. */
  ghost predicate DeliveredAt(log: seq<Entry>, before: nat, after: nat, id: ContractId) {
    before < after <= |log| && log[after - 1].id == id
  }

  /** No report but the last is of a game that is over. */
  ghost predicate StopsAtEnd(reports: seq<Status>, over: bool) {
    && reports != []
    && (forall i | 0 <= i < |reports| - 1 :: reports[i].decision.None?)
    && (over <==> reports[|reports| - 1].decision.Some?)
  }

  lemma OneMoreReport(g: Game, r: Rules, was: seq<Status>, reports: seq<Status>, over: bool, keys: set<RecordId>)
    requires StopsAtEnd(was, false) && was < reports && |reports| == |was| + 1 && Judged(g, r, reports, over, keys)
    ensures StopsAtEnd(reports, over)
  {
  }

  class Watcher {
    const node: FakeNode
    const contract: ContractId
    const previousId: Option<ContractId>
    const ours: Key
    var state: Records
    var previousState: Option<Records>
    var unreachable: bool
    var skewed: bool
    var calls: seq<Skew>
    var reports: seq<Status>
    var over: bool

    /** `open_game`: a GET that does not subscribe; an absent contract reads as empty. */
    constructor (n: FakeNode, g: Game, r: Rules, contract: ContractId, previous: Option<ContractId>, ours: Key)
      requires g.Sound() && Keyed(g, Now(n.world.contracts, contract))
      ensures this.node == n && this.contract == contract && this.previousId == previous
      ensures state == Now(n.world.contracts, contract)
      ensures Alternates(calls, skewed) && previousState.None? && |reports| == 1 && StopsAtEnd(reports, over)
      ensures Shown(g, r, reports, state.Keys) && Judged(g, r, reports, over, state.Keys)
    {
      this.node := n;
      this.contract := contract;
      this.previousId := previous;
      this.ours := ours;
      previousState, unreachable, skewed, calls := None, false, false, [];
      var got := n.Get(contract, false);
      var first := if got.Some? then got.value else map[];
      var status := ProjectState(g, r, first);
      state, reports, over := first, [status], status.decision.Some?;
    }

    /** Not yet subscribed: what was read is contained in what the contract holds by now. */
    ghost predicate Behind(g: Game)
      reads this, node, node.world
    {
      && WorldOk(g, contract, node.world.contracts, node.world.log) && Authentic(g, state)
      && Contains(g, Now(node.world.contracts, contract), state.Values)
      && Caught(g, contract, node.world.contracts, node.world.log, node.cursor, node.subscribed)
      && Alternates(calls, skewed) && previousState.None?
    }

    ghost predicate Following(g: Game)
      reads this, node, node.world
    {
      && InStep(g, contract, node.world.contracts, node.world.log, node.cursor, node.subscribed, state)
      && Alternates(calls, skewed)
    }

    /** The previous contract is watched too, unless it is past asking. */
    ghost predicate LookedBack()
      reads this, node
    {
      previousId.Some? ==> unreachable || previousId.value in node.subscribed
    }

    /** The flag answers the question asked of what is held and what was last seen elsewhere. */
    ghost predicate SkewTold()
      reads this
    {
      previousId.Some? && previousState.Some? ==>
        skewed == OpponentMovedOnPrevious(state, previousState.value, ours)
    }

    method Report(g: Game, r: Rules)
      requires g.Sound() && Following(g)
      modifies this`reports, this`over
      ensures Following(g)
      ensures Shown(g, r, reports, state.Keys) && Judged(g, r, reports, over, state.Keys)
      ensures old(reports) < reports && |reports| == |old(reports)| + 1
    {
      var status := ProjectState(g, r, state);
      Say(g, status);
    }

    method Say(g: Game, status: Status)
      requires Following(g)
      modifies this`reports, this`over
      ensures Following(g)
      ensures reports == old(reports) + [status] && over == status.decision.Some?
    {
      reports := reports + [status];
      over := status.decision.Some?;
    }

    /** The answer to the subscribing GET is MERGED into what `open_game` read. */
    method MergeAnswer(g: Game)
      requires g.Sound() && Authentic(g, state) && Authentic(g, Now(node.world.contracts, contract))
      requires Contains(g, Now(node.world.contracts, contract), state.Values)
      requires Caught(g, contract, node.world.contracts, node.world.log, node.cursor, node.subscribed)
      modifies this`state, node
      ensures state == Settled(g, Now(node.world.contracts, contract)) && node.cursor == old(node.cursor)
      ensures contract in node.subscribed
      ensures Caught(g, contract, node.world.contracts, node.world.log, node.cursor, node.subscribed)
    {
      SubscribingCatches(g, contract, node.world.contracts, node.world.log, node.cursor, node.subscribed);
      var answer := node.Get(contract, true);
      SubscribeMerge(g, state, Now(node.world.contracts, contract));
      if answer.Some? && answer.value != map[] {
        MergeValue(g, answer.value);
      } else {
        NothingSettles(g);
      }
    }

    /** From then on the watcher is in step, holding what the contract's state amounts to. */
    method Subscribe(g: Game)
      requires g.Sound() && Behind(g)
      modifies this`state, node
      ensures Following(g) && previousState.None? && Keyed(g, state)
      ensures state == Settled(g, Now(node.world.contracts, contract))
    {
      MergeAnswer(g);
      NowInStep(g, contract, node.world.contracts, node.world.log, node.cursor, node.subscribed);
    }

    /** After that merge, a report is made only if the number of records changed from `before`; `stays`
        and `still` say whether the last board and verdict would otherwise be the right ones. */
    method ReportIfResized(g: Game, r: Rules, before: nat, ghost stays: bool, ghost still: bool)
      requires g.Sound() && Following(g) && Keyed(g, state)
      requires |state| == before ==>
                 (Shown(g, r, reports, state.Keys) <==> stays) && (Judged(g, r, reports, over, state.Keys) <==> still)
      modifies this`reports, this`over
      ensures Following(g) && (Shown(g, r, reports, state.Keys) <==> |state| != before || stays)
      ensures Judged(g, r, reports, over, state.Keys) <==> |state| != before || still
      ensures if |state| == before then reports == old(reports) && over == old(over)
              else old(reports) < reports && |reports| == |old(reports)| + 1
    {
      if |state| != before {
        Report(g, r);
      }
    }

    /** Subscribes, merges the answer, and reports if that changed the number of records. If it did not,
        the board and the verdict last reported are those of the state exactly when the merge brought
        nothing that changes them. `held` is what was read, `settled` what the contract amounts to. */
    method Join(g: Game, r: Rules, ghost held: Records, ghost settled: Records)
      requires held == state && settled == Settled(g, Now(node.world.contracts, contract))
      requires g.Sound() && Behind(g)
      requires Shown(g, r, reports, held.Keys) && Judged(g, r, reports, over, held.Keys) && !over
      modifies this`state, this`reports, this`over, node
      ensures Following(g) && previousState.None? && state == settled && Later(g, held.Keys, settled.Keys)
      ensures Shown(g, r, reports, settled.Keys) <==>
              |settled| != |held| || BoardStays(g, r, held.Keys, settled.Keys)
      ensures Judged(g, r, reports, over, settled.Keys) <==>
              |settled| != |held| || VerdictStays(g, r, held.Keys, settled.Keys)
      ensures if |settled| == |held| then reports == old(reports) && !over
              else old(reports) < reports && |reports| == |old(reports)| + 1
    {
      BehindShown(g, r, this, settled);
      CatchUp(g, r, |state|, settled, BoardStays(g, r, held.Keys, settled.Keys),
              VerdictStays(g, r, held.Keys, settled.Keys));
    }

    /** Subscribing and that report together. */
    method CatchUp(g: Game, r: Rules, before: nat, ghost settled: Records, ghost stays: bool, ghost still: bool)
      requires g.Sound() && Behind(g) && settled == Settled(g, Now(node.world.contracts, contract))
      requires |settled| == before ==>
                 (Shown(g, r, reports, settled.Keys) <==> stays)
                 && (Judged(g, r, reports, over, settled.Keys) <==> still)
      modifies this`state, this`reports, this`over, node
      ensures Following(g) && previousState.None? && state == settled
      ensures Shown(g, r, reports, settled.Keys) <==> |settled| != before || stays
      ensures Judged(g, r, reports, over, settled.Keys) <==> |settled| != before || still
      ensures if |settled| == before then reports == old(reports) && over == old(over)
              else old(reports) < reports && |reports| == |old(reports)| + 1
    {
      Subscribe(g);
      ReportIfResized(g, r, before, stays, still);
    }

    method MergeValue(g: Game, other: Records)
      requires g.Sound() && Keyed(g, state) && Keyed(g, other)
      modifies this`state
      ensures state == Merged(g, old(state), other)
    {
      var game := new GameState.Empty();
      game.records := state;
      game.Merge(g, other);
      state := game.records;
    }

    method ApplyValue(g: Game, delta: seq<Record>)
      requires g.Sound() && Keyed(g, state)
      modifies this`state
      ensures state == Applied(g, old(state), delta)
    {
      var game := new GameState.Empty();
      game.records := state;
      game.ApplyDelta(g, delta);
      state := game.records;
    }

    /** Infallible: a failed GET only marks the previous contract as not worth asking again. */
    method RefreshPreviousState(earlier: ContractId, subscribe: bool, reply: Reply)
      modifies this`previousState, this`unreachable, if subscribe then {node} else {}
      ensures node.cursor == old(node.cursor)
      ensures node.subscribed == old(node.subscribed)
              || (earlier !in old(node.subscribed)
                  && node.subscribed == old(node.subscribed)[earlier := |node.world.log|])
      ensures (previousState, unreachable) ==
              Refreshed(old(previousState), old(unreachable), reply, node.world.contracts, earlier)
      ensures subscribe && !old(unreachable) && !reply.Unanswered? ==> earlier in node.subscribed
    {
      if unreachable {
        return;
      }
      if reply.Unanswered? {
        unreachable := true;
        return;
      }
      var got := node.Get(earlier, subscribe);
      if got.None? {
        return;
      }
      if reply.Garbled? {
        unreachable := true;
      } else if got.value != map[] || reply.emptyIsEncoded {
        previousState := got;
      }
    }

    /** Calls back only on a transition. */
    method RecomputeSkew()
      requires Alternates(calls, skewed)
      modifies this`skewed, this`calls
      ensures Alternates(calls, skewed) && old(calls) <= calls
      ensures previousState.Some? ==> skewed == OpponentMovedOnPrevious(state, previousState.value, ours)
      ensures previousState.None? ==> skewed == old(skewed)
      ensures calls == if skewed == old(skewed) then old(calls)
                       else old(calls) + [if skewed then Warning else Resolved]
    {
      if previousState.None? {
        return;
      }
      var moved := OpponentMovedOnPrevious(state, previousState.value, ours);
      if moved != skewed {
        calls := calls + [if moved then Warning else Resolved];
        skewed := moved;
      }
    }

    /** Merges a whole state, applies a delta; an empty payload says nothing. */
    method Take(g: Game, e: Entry)
      requires g.Sound() && Normal(g, state) && (e.what.Whole? ==> Keyed(g, e.what.state))
      modifies this`state
      ensures state == StateOf(g, old(state).Values + e.Tells())
    {
      Heed(g, state, e);
      match e.what {
        case Whole(m) =>
          if m != map[] {
            MergeValue(g, m);
          }
        case Part(delta) =>
          if delta != [] {
            ApplyValue(g, delta);
          }
      }
    }

    /** Takes the next notification, merging it if it is ours, and says what it was about. */
    method Advance(g: Game) returns (about: Option<ContractId>)
      requires g.Sound() && Following(g)
      modifies this`state, node`cursor
      ensures Following(g)
      ensures about == Some(contract) || state == old(state)
      ensures about.None? <==> old(node.Drained())
      ensures if about.None? then node.Drained()
              else DeliveredAt(node.world.log, old(node.cursor), node.cursor, about.value)
    {
      ghost var before := node.cursor;
      var e := node.NextUpdate();
      Receive(g, e, before);
      about := if e.Some? then Some(e.value.id) else None;
    }

    /** What the loop does with what `next_update` returned. */
    method Receive(g: Game, e: Option<Entry>, ghost before: nat)
      requires g.Sound() && before <= node.cursor
      requires InStep(g, contract, node.world.contracts, node.world.log, before, node.subscribed, state)
      requires Finds(node.world.log, node.subscribed, before, node.cursor, e)
      modifies this`state
      ensures InStep(g, contract, node.world.contracts, node.world.log, node.cursor, node.subscribed, state)
      ensures e.None? || e.value.id != contract ==> state == old(state)
    {
      AfterNext(g, contract, node.world.contracts, node.world.log, before, node.cursor, node.subscribed, state, e);
      if e.Some? && e.value.id == contract {
        Take(g, e.value);
      }
    }

    /** The skew check that follows a notification, if one is due: news of our own contract, which may
        have changed what is held, or of the previous one. */
    method NoteSkew(g: Game, id: ContractId, reply: Reply)
      requires Following(g) && (id == contract || SkewTold())
      modifies this`previousState, this`unreachable, this`skewed, this`calls
      ensures Following(g) && old(calls) <= calls && SkewTold()
      ensures (previousState, unreachable) ==
              if id != contract && previousId == Some(id)
              then Refreshed(old(previousState), old(unreachable), reply, node.world.contracts, id)
              else (old(previousState), old(unreachable))
    {
      if id != contract {
        if previousId == Some(id) {
          RefreshPreviousState(id, false, reply);
          RecomputeSkew();
        }
      } else if previousId.Some? {
        RecomputeSkew();
      }
    }

    /** One turn of the watch loop. Others may write while it asks for the previous contract again.
        `more` is false exactly when nothing was left to deliver; otherwise the next entry has been, and
        if it was about the previous contract that has been asked for again. */
    method Turn(g: Game, r: Rules, reply: Reply, meanwhile: seq<Write>)
      returns (more: bool, ghost about: Option<ContractId>)
      requires g.Sound() && Following(g) && SkewTold()
      modifies this, node`cursor, node.world
      ensures Following(g) && SkewTold() && old(calls) <= calls
      ensures Unsaid(old(reports), old(over), old(state)) || SaidOnce(g, r, old(reports))
      ensures (more <==> !old(node.Drained())) && (more <==> about.Some?)
      ensures !more ==> node.Drained()
      ensures more ==> DeliveredAt(old(node.world.log), old(node.cursor), node.cursor, about.value)
      ensures (previousState, unreachable) ==
              if more && about != Some(contract) && previousId == about
              then Refreshed(old(previousState), old(unreachable), reply, node.world.contracts, previousId.value)
              else (old(previousState), old(unreachable))
      ensures meanwhile == [] ==> node.world.log == old(node.world.log)
    {
      var id := Advance(g);
      more, about := id.Some?, id;
      if more {
        Respond(g, r, id.value, reply, meanwhile);
      }
    }

    /** What follows a notification about `id`. */
    method Respond(g: Game, r: Rules, id: ContractId, reply: Reply, meanwhile: seq<Write>)
      requires g.Sound() && Following(g) && (id == contract || SkewTold())
      modifies this`previousState, this`unreachable, this`skewed, this`calls, this`reports, this`over, node.world
      ensures Following(g) && SkewTold() && old(calls) <= calls
      ensures if id == contract then SaidOnce(g, r, old(reports)) else Unsaid(old(reports), old(over), old(state))
      ensures (previousState, unreachable) ==
              if id != contract && previousId == Some(id)
              then Refreshed(old(previousState), old(unreachable), reply, node.world.contracts, id)
              else (old(previousState), old(unreachable))
      ensures old(node.world.log) <= node.world.log && (meanwhile == [] ==> node.world.log == old(node.world.log))
    {
      if id == contract {
        Announce(g, r, reply);
      } else {
        Overhear(g, id, reply, meanwhile);
      }
    }

    /** Nothing has changed that a report is about, and nothing was reported. */
    ghost predicate Unsaid(reports': seq<Status>, over': bool, state': Records)
      reads this
    {
      reports == reports' && over == over' && state == state'
    }

    /** The last report, made after `n` others at least, is of what is held. */
    ghost predicate Said(g: Game, r: Rules, n: nat)
      reads this
    {
      |reports| > n && Shown(g, r, reports, state.Keys) && Judged(g, r, reports, over, state.Keys)
    }

    /** There is one more report, and it is of what is held. */
    ghost predicate SaidOnce(g: Game, r: Rules, was: seq<Status>)
      reads this
    {
      was < reports && |reports| == |was| + 1 && Said(g, r, |was|)
    }

    /** News of some other contract; others may write before the previous one is asked for again. */
    method Overhear(g: Game, id: ContractId, reply: Reply, meanwhile: seq<Write>)
      requires g.Sound() && Following(g) && id != contract && SkewTold()
      modifies this`previousState, this`unreachable, this`skewed, this`calls, node.world
      ensures Following(g) && SkewTold() && old(calls) <= calls
      ensures (previousState, unreachable) ==
              if previousId == Some(id)
              then Refreshed(old(previousState), old(unreachable), reply, node.world.contracts, id)
              else (old(previousState), old(unreachable))
      ensures old(node.world.log) <= node.world.log && (meanwhile == [] ==> node.world.log == old(node.world.log))
    {
      LetWrite(g, this, meanwhile);
      NoteSkew(g, id, reply);
    }

    /** After our own contract's news: the skew check, then the report. */
    method Announce(g: Game, r: Rules, reply: Reply)
      requires g.Sound() && Following(g)
      modifies this`previousState, this`unreachable, this`skewed, this`calls, this`reports, this`over
      ensures Following(g) && SkewTold() && old(calls) <= calls && SaidOnce(g, r, old(reports))
      ensures previousState == old(previousState) && unreachable == old(unreachable)
    {
      NoteSkew(g, contract, reply);
      Report(g, r);
    }
  }

  lemma NothingSettles(g: Game)
    requires g.Sound()
    ensures var none: Records := map[]; Settled(g, none) == none
  {
    var none: Records := map[];
    assert none.Values == {};
    StateOfNormal(g, {});
  }

  /** With nothing left to hear, what the watcher holds is what the contract's bytes amount to, and it
      is the contract's state itself exactly when that is within K. */
  lemma DrainedHolds(g: Game, watcher: Watcher)
    requires g.Sound() && watcher.Following(g) && watcher.node.Drained()
    ensures var now := Now(watcher.node.world.contracts, watcher.contract);
            watcher.state == Filtered(g, now) && (watcher.state == now <==> Normal(g, now))
  {
    var node := watcher.node;
    NothingPending(g, watcher.contract, node.world.contracts, node.world.log, node.cursor, node.subscribed,
                   watcher.state);
    SettledIs(g, Now(node.world.contracts, watcher.contract));
  }

  /** What the subscribing merge does to the board and the verdict. What was read need not be within K,
      and then a merge that keeps the number of records can hide even a move. */
  lemma SubscribeBoard(g: Game, r: Rules, held: Records, now: Records)
    requires g.Sound() && Authentic(g, held) && Authentic(g, now) && Contains(g, now, held.Values)
    ensures var t := Settled(g, now);
            && Later(g, held.Keys, t.Keys)
            && (ChainOf(g, r, t.Keys) == ChainOf(g, r, held.Keys) <==> BoardStays(g, r, held.Keys, t.Keys))
            && (Verdict(g, r, held.Keys) == None ==>
                (Verdict(g, r, t.Keys) == None <==> VerdictStays(g, r, held.Keys, t.Keys)))
  {
    var t := Settled(g, now);
    SubscribeMerge(g, held, now);
    MergedIsLater(g, held, now);
    BoardStaysIff(g, r, held.Keys, t.Keys);
    if Verdict(g, r, held.Keys) == None {
      VerdictStaysIff(g, r, held.Keys, t.Keys);
    }
  }

  lemma BehindShown(g: Game, r: Rules, watcher: Watcher, settled: Records)
    requires g.Sound() && watcher.Behind(g)
    requires settled == Settled(g, Now(watcher.node.world.contracts, watcher.contract))
    requires Shown(g, r, watcher.reports, watcher.state.Keys)
    requires Judged(g, r, watcher.reports, watcher.over, watcher.state.Keys) && !watcher.over
    ensures Later(g, watcher.state.Keys, settled.Keys)
    ensures Shown(g, r, watcher.reports, settled.Keys) <==> BoardStays(g, r, watcher.state.Keys, settled.Keys)
    ensures Judged(g, r, watcher.reports, watcher.over, settled.Keys) <==>
            VerdictStays(g, r, watcher.state.Keys, settled.Keys)
  {
    SubscribeBoard(g, r, watcher.state, Now(watcher.node.world.contracts, watcher.contract));
  }

  lemma LaterBy(g: Game, s: set<RecordId>, t: set<RecordId>) returns (x: set<RecordId>)
    requires Later(g, s, t) && Top(g, s) == s
    ensures t == Top(g, s + x)
  {
    if t == s {
      x := {};
      assert s + x == s;
    } else {
      x :| t == Top(g, s + x);
    }
  }

  // ---- Whole runs ----

  /** Someone else writes before we have subscribed. */
  method WriteEarly(g: Game, watcher: Watcher, w: Write)
    requires g.Sound() && watcher.Behind(g)
    modifies watcher.node.world
    ensures watcher.Behind(g)
  {
    var world, id := watcher.node.world, watcher.contract;
    var ok := MayPerform(g, id, world.contracts, w);
    if ok {
      WriteKeepsContained(g, id, world.contracts, world.log, watcher.state, w);
      WriteKeepsCaught(g, id, world.contracts, world.log, watcher.node.cursor, watcher.node.subscribed, w);
      Perform(g, world, id, w);
    }
  }

  /** Someone else writes while we follow. */
  method WriteDuring(g: Game, watcher: Watcher, w: Write)
    requires g.Sound() && watcher.Following(g)
    modifies watcher.node.world
    ensures watcher.Following(g) && old(watcher.node.world.log) <= watcher.node.world.log
  {
    var world, id := watcher.node.world, watcher.contract;
    var ok := MayPerform(g, id, world.contracts, w);
    if ok {
      WriteKeepsStep(g, id, world.contracts, world.log, watcher.node.cursor, watcher.node.subscribed,
                     watcher.state, w);
      Perform(g, world, id, w);
    }
  }

  /** Any number of such writes. */
  method LetWrite(g: Game, watcher: Watcher, writes: seq<Write>)
    requires g.Sound() && watcher.Following(g)
    modifies watcher.node.world
    ensures watcher.Following(g) && old(watcher.node.world.log) <= watcher.node.world.log
    ensures writes == [] ==> watcher.node.world.log == old(watcher.node.world.log)
  {
    for i := 0 to |writes|
      invariant watcher.Following(g) && old(watcher.node.world.log) <= watcher.node.world.log
      invariant writes == [] ==> watcher.node.world.log == old(watcher.node.world.log)
    {
      WriteDuring(g, watcher, writes[i]);
    }
  }

  /** Opens the game and lets others write. */
  method Open(g: Game, r: Rules, node: FakeNode, contract: ContractId, previous: Option<ContractId>, ours: Key,
              early: seq<Write>) returns (watcher: Watcher)
    requires g.Sound() && WorldOk(g, contract, node.world.contracts, node.world.log)
    requires Caught(g, contract, node.world.contracts, node.world.log, node.cursor, node.subscribed)
    modifies node.world
    ensures fresh(watcher) && watcher.node == node && watcher.contract == contract && watcher.previousId == previous
    ensures watcher.Behind(g) && |watcher.reports| == 1 && Shown(g, r, watcher.reports, watcher.state.Keys)
    ensures Judged(g, r, watcher.reports, watcher.over, watcher.state.Keys) && StopsAtEnd(watcher.reports, watcher.over)
    ensures watcher.state == Now(old(node.world.contracts), contract)
  {
    watcher := new Watcher(node, g, r, contract, previous, ours);
    ContainsItself(g, watcher.state);
    for i := 0 to |early|
      modifies node.world
      invariant watcher.Behind(g)
    {
      WriteEarly(g, watcher, early[i]);
    }
  }

  /** The check that precedes the loop: subscribe to the previous contract too, and compare. */
  method LookBack(g: Game, watcher: Watcher, reply: Reply)
    requires watcher.Following(g) && watcher.SkewTold()
    modifies watcher`previousState, watcher`unreachable, watcher`skewed, watcher`calls, watcher.node
    ensures watcher.Following(g) && watcher.SkewTold() && watcher.LookedBack()
    ensures (watcher.previousState, watcher.unreachable) ==
            if watcher.previousId.None? then (old(watcher.previousState), old(watcher.unreachable))
            else Refreshed(old(watcher.previousState), old(watcher.unreachable), reply, watcher.node.world.contracts,
                           watcher.previousId.value)
  {
    if watcher.previousId.Some? {
      var node := watcher.node;
      ghost var subscribed := node.subscribed;
      watcher.RefreshPreviousState(watcher.previousId.value, true, reply);
      SubscribingElsewhere(g, watcher.contract, node.world.contracts, node.world.log, node.cursor, subscribed,
                           node.subscribed, watcher.state);
      watcher.RecomputeSkew();
    }
  }

  /** One beat of a session: a turn of the watcher's, whatever its GET meets and others write
      meanwhile, or somebody else's write. */
  datatype Beat = Ours(reply: Reply, meanwhile: seq<Write>) | Theirs(w: Write)

  /** Nobody else writes. */
  ghost predicate Quiet(schedule: seq<Beat>) {
    forall i | 0 <= i < |schedule| :: schedule[i].Ours? && schedule[i].meanwhile == []
  }

  /** The loop, until the schedule or the game ends. The first report of an ended game is the last, and
      left alone long enough the loop delivers everything. */
  method Follow(g: Game, r: Rules, watcher: Watcher, schedule: seq<Beat>)
    requires g.Sound() && watcher.Following(g) && watcher.SkewTold() && watcher.LookedBack()
    requires StopsAtEnd(watcher.reports, watcher.over)
    modifies watcher, watcher.node`cursor, watcher.node.world
    ensures watcher.Following(g) && watcher.SkewTold() && watcher.LookedBack() && old(watcher.calls) <= watcher.calls
    ensures StopsAtEnd(watcher.reports, watcher.over)
    ensures old(watcher.over) ==> watcher.Unsaid(old(watcher.reports), true, old(watcher.state))
    ensures watcher.Unsaid(old(watcher.reports), old(watcher.over), old(watcher.state))
            || watcher.Said(g, r, |old(watcher.reports)|)
    ensures Quiet(schedule) ==> watcher.node.world.log == old(watcher.node.world.log)
    ensures Quiet(schedule) && |schedule| > |old(watcher.node.world.log)| - old(watcher.node.cursor) ==>
              watcher.over || watcher.node.Drained()
  {
    for i := 0 to |schedule|
      invariant watcher.Following(g) && watcher.SkewTold() && watcher.LookedBack()
      invariant old(watcher.calls) <= watcher.calls
      invariant StopsAtEnd(watcher.reports, watcher.over)
      invariant watcher.Unsaid(old(watcher.reports), old(watcher.over), old(watcher.state))
                || (!old(watcher.over) && watcher.Said(g, r, |old(watcher.reports)|))
      invariant Quiet(schedule) ==>
        && watcher.node.world.log == old(watcher.node.world.log)
        && (watcher.node.Drained() || watcher.node.cursor >= old(watcher.node.cursor) + i)
    {
      if watcher.over {
        return;
      }
      Beaten(g, r, watcher, schedule[i]);
    }
  }

  /** One beat. */
  method Beaten(g: Game, r: Rules, watcher: Watcher, beat: Beat)
    requires g.Sound() && watcher.Following(g) && watcher.SkewTold() && watcher.LookedBack()
    requires StopsAtEnd(watcher.reports, watcher.over) && !watcher.over
    modifies watcher, watcher.node`cursor, watcher.node.world
    ensures watcher.Following(g) && watcher.SkewTold() && watcher.LookedBack() && old(watcher.calls) <= watcher.calls
    ensures StopsAtEnd(watcher.reports, watcher.over)
    ensures watcher.Unsaid(old(watcher.reports), old(watcher.over), old(watcher.state))
            || watcher.Said(g, r, |old(watcher.reports)|)
    ensures beat.Ours? && beat.meanwhile == [] ==>
      && watcher.node.world.log == old(watcher.node.world.log)
      && (watcher.node.Drained() || watcher.node.cursor > old(watcher.node.cursor))
      && (old(watcher.node.Drained()) ==> watcher.node.Drained())
  {
    if beat.Ours? {
      ghost var was := watcher.reports;
      var _, _ := watcher.Turn(g, r, beat.reply, beat.meanwhile);
      if watcher.reports != was {
        OneMoreReport(g, r, was, watcher.reports, watcher.over, watcher.state.Keys);
      }
    } else {
      WriteDuring(g, watcher, beat.w);
    }
  }

  /** Everything after `open_game`: subscribe, look back once, and follow, unless the answer to the
      subscribing GET already shows the game over. Others write between the steps. */
  method Attend(g: Game, r: Rules, watcher: Watcher, ghost read: Records, between: seq<Write>, reply: Reply,
                schedule: seq<Beat>)
    requires g.Sound() && watcher.Behind(g) && read == watcher.state && |watcher.reports| == 1
    requires Shown(g, r, watcher.reports, read.Keys) && Judged(g, r, watcher.reports, watcher.over, read.Keys)
    requires !watcher.over && StopsAtEnd(watcher.reports, watcher.over)
    modifies watcher, watcher.node, watcher.node.world
    ensures watcher.Following(g) && watcher.SkewTold() && (watcher.over || watcher.LookedBack())
    ensures StopsAtEnd(watcher.reports, watcher.over)
    ensures Quiet(schedule) && |schedule| > |watcher.node.world.log| ==> watcher.over || watcher.node.Drained()
    ensures Accounted(g, r, watcher.reports, watcher.over, read, watcher.state)
  {
    ghost var was, settled := watcher.reports, Settled(g, Now(watcher.node.world.contracts, watcher.contract));
    watcher.Join(g, r, read, settled);
    JoinAccounts(g, r, was, watcher.reports, watcher.over, read, settled);
    JoinStops(g, r, was, watcher.reports, watcher.over, read, settled);
    Continue(g, r, watcher, read, settled, between, reply, schedule);
  }

  lemma JoinAccounts(g: Game, r: Rules, was: seq<Status>, reports: seq<Status>, over: bool, read: Records,
                     held: Records)
    requires |was| == 1 && Shown(g, r, was, read.Keys) && Judged(g, r, was, false, read.Keys)
    requires Later(g, read.Keys, held.Keys)
    requires if |held| == |read| then reports == was && !over
             else |reports| == 2 && Shown(g, r, reports, held.Keys) && Judged(g, r, reports, over, held.Keys)
    ensures Accounted(g, r, reports, over, read, held)
  {
  }

  lemma JoinStops(g: Game, r: Rules, was: seq<Status>, reports: seq<Status>, over: bool, read: Records, held: Records)
    requires StopsAtEnd(was, false)
    requires if |held| == |read| then reports == was && !over
             else was < reports && |reports| == |was| + 1 && Judged(g, r, reports, over, held.Keys)
    ensures StopsAtEnd(reports, over)
  {
  }

  method Continue(g: Game, r: Rules, watcher: Watcher, ghost read: Records, ghost held: Records,
                  between: seq<Write>, reply: Reply, schedule: seq<Beat>)
    requires g.Sound() && watcher.Following(g) && watcher.SkewTold() && held == watcher.state
    requires Accounted(g, r, watcher.reports, watcher.over, read, held) && StopsAtEnd(watcher.reports, watcher.over)
    modifies watcher, watcher.node, watcher.node.world
    ensures watcher.Following(g) && watcher.SkewTold() && (watcher.over || watcher.LookedBack())
    ensures StopsAtEnd(watcher.reports, watcher.over)
    ensures Quiet(schedule) && |schedule| > |watcher.node.world.log| ==> watcher.over || watcher.node.Drained()
    ensures Accounted(g, r, watcher.reports, watcher.over, read, watcher.state)
  {
    if watcher.over {
      return;
    }
    LetWrite(g, watcher, between);
    LookBack(g, watcher, reply);
    Follow(g, r, watcher, schedule);
  }

  /** A whole session, by a node that may have followed before. A game found already over is not followed.
      `read` is what it was opened with. It ends where another can begin. */
  method Session(g: Game, r: Rules, node: FakeNode, contract: ContractId, previous: Option<ContractId>, ours: Key,
                 early: seq<Write>, between: seq<Write>, reply: Reply, schedule: seq<Beat>)
    returns (watcher: Watcher, ghost read: Records)
    requires g.Sound() && WorldOk(g, contract, node.world.contracts, node.world.log)
    requires Caught(g, contract, node.world.contracts, node.world.log, node.cursor, node.subscribed)
    modifies node, node.world
    ensures watcher.node == node && watcher.contract == contract && read == Now(old(node.world.contracts), contract)
    ensures watcher.Following(g) || (watcher.over && watcher.state == read && |watcher.reports| == 1)
    ensures Accounted(g, r, watcher.reports, watcher.over, read, watcher.state)
    ensures Alternates(watcher.calls, watcher.skewed) && watcher.SkewTold()
    ensures StopsAtEnd(watcher.reports, watcher.over) && (watcher.over || watcher.LookedBack())
    ensures Quiet(schedule) && |schedule| > |node.world.log| ==> watcher.over || node.Drained()
    ensures WorldOk(g, contract, node.world.contracts, node.world.log)
    ensures Caught(g, contract, node.world.contracts, node.world.log, node.cursor, node.subscribed)
    ensures watcher.Following(g) && node.Drained() ==>
      && watcher.state == Filtered(g, Now(node.world.contracts, contract))
      && (watcher.state == Now(node.world.contracts, contract) <==> Normal(g, Now(node.world.contracts, contract)))
  {
    watcher := Open(g, r, node, contract, previous, ours, early);
    read := watcher.state;
    if !watcher.over {
      Attend(g, r, watcher, read, between, reply, schedule);
      InStepIsCaught(g, contract, node.world.contracts, node.world.log, node.cursor, node.subscribed, watcher.state);
    }
    if watcher.Following(g) && node.Drained() {
      DrainedHolds(g, watcher);
    }
  }

  /** From any world without the contract: its first PUT, then a session by a new node. */
  method FirstSession(g: Game, r: Rules, world: World, contract: ContractId, first: Records,
                      previous: Option<ContractId>, ours: Key,
                      early: seq<Write>, between: seq<Write>, reply: Reply, schedule: seq<Beat>)
    returns (watcher: Watcher)
    requires g.Sound() && Authentic(g, first) && contract !in world.contracts
    requires WorldOk(g, contract, world.contracts, world.log)
    modifies world
    ensures watcher.node.world == world && watcher.contract == contract
    ensures watcher.Following(g) || (watcher.over && watcher.state == first && |watcher.reports| == 1)
    ensures Accounted(g, r, watcher.reports, watcher.over, first, watcher.state)
    ensures Alternates(watcher.calls, watcher.skewed) && watcher.SkewTold()
    ensures StopsAtEnd(watcher.reports, watcher.over) && (watcher.over || watcher.LookedBack())
    ensures Quiet(schedule) && |schedule| > |world.log| ==> watcher.over || watcher.node.Drained()
    ensures watcher.Following(g) && watcher.node.Drained() ==>
      && watcher.state == Filtered(g, Now(world.contracts, contract))
      && (watcher.state == Now(world.contracts, contract) <==> Normal(g, Now(world.contracts, contract)))
  {
    FirstPutStarts(g, contract, world.contracts, world.log, first);
    world.Put(contract, first);
    var node := new FakeNode(world);
    ghost var read: Records;
    watcher, read := Session(g, r, node, contract, previous, ours, early, between, reply, schedule);
  }
}
