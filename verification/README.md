# A verified model of adjourn

adjourn plays correspondence chess over a network nobody owns. A game is a set of signed records.
Peers merge their sets in any order and must agree. A projection turns a set into a chess game and
a verdict. A delegate on each player's machine holds the key and must never sign two moves at one
ply, because two such signatures forfeit the game. Clients follow a game, and carry it to a new
contract address when the contract is rebuilt.

These modules model those four parts and prove what they promise each other. Every theorem is about
all record sets, all schedules or all runs; there is no bound on peers, records, steps or failures
other than the ones the code has itself.

## The modules

| module | what it holds |
|---|---|
| `Types` | records, groups, parameters and the cryptography a game is made with |
| `Finite`, `TopK` | finite sets and their ascending listings; keeping the K smallest of every group |
| `State` | the mutable `GameState` class, each method tied to a function on the record map |
| `Algebra` | the laws of merge, from one representation: a state is the eviction of a join of a SET of records |
| `Sync` | summaries, deltas, the validity filter, the size bound |
| `Convergence` | any number of peers over a network that loses, repeats, delays and misdelivers |
| `Admission` | what a record must be to be held, and which are held, said of the records themselves |
| `Codecs`, `Contract` | the two packed encodings; the contract interface over decoded values |
| `Chess`, `Project` | chess as a transition system; the loops of the projection against their specification |
| `Verdicts` | the game and its verdict, said of the records and the positions themselves |
| `Finality` | what merging and eviction can and cannot do to a game, its chain and its verdict |
| `Delegate`, `OneSignature` | the handlers over a store whose writes may fail; one signature per ply end to end |
| `Grants` | what the delegate grants, to whom, and what it then holds, said of the stored fields and the call |
| `Network` | contract states and an ordered log of writes, the nodes that read them, and being in step with them |
| `Watch` | the watcher's loop, its reports and its skew warning, while others keep writing |
| `Queue` | the browser transport's inbox, parked notifications and close latch |
| `Migration` | moving a game between contracts, interrupted anywhere, repeated any number of times |
| `Witness` | a concrete game on which the assumptions hold and the unsupported claims fail |

## What is assumed

* Hashes do not collide. `Game.Sound` and `Host.Sound` say so by giving each hash a left inverse.
  `Witness.AssumptionsHold` shows that a game and a host can meet this. Signature verification is an arbitrary predicate.
* Ids, keys, signatures and digests are fixed-length byte strings that the code compares
  byte by byte, so they are modelled as big-endian numbers.
* A state files every record under that record's own id (`Keyed`). Every constructor and decoder of
  the source produces such states.
* A node stores only what the contract's `validate_state` accepts: valid records, of any number to a group
  (`Algebra.Authentic`). The in-memory node stores any bytes; a PUT of forged records to it is not covered by `Watch`.
* Chess is a value of `Rules`: a start position, a partial step, a repetition key, a half-move clock,
  the side to move and the terminal predicates. Only where a theorem needs it, `Fair` says that
  White starts, moves alternate and nobody moves out of mate or stalemate.
* `walk` counts plies in a `u16`. The model counts in unbounded numbers, and `Finality.ChainIsShort` shows
  that on verified records the count never exceeds 4097.

## Where the code and its comments differ

The model follows the code.

* `common/src/state.rs:157-160` says that verifying inside `absorb` makes merge and `filter_valid`
  commute. They commute exactly when no forged record already in the base crowds a valid one out of
  its group (`Sync.FilterCommutesIff`). `Witness.ForgeryExample` is a failing input.
* `common/src/project.rs:282-287` says only the acceptor can void an accepted draw. The offerer can
  too, by moving on when it is the offerer's turn, or at any time by publishing a lower-id offer in the same
  slot. `Finality.AgreementStandsIff` gives the exact condition, `Finality.AgreementHasNoRace` what holds
  when the acceptor is to move; `Witness.MovingOnExample` and `Witness.DisplacingExample` are games where it fails.
* `delegates/adjourn-delegate/src/lib.rs:65-71` says that a failed write leaves nothing behind. A failed creation leaves the
  store untouched exactly when the very first write was lost
  (`OneSignature.FailedCreateLeavesNothingIff`, `Witness.FailedCreateExample`).
* `client/src/session.rs:743-754` skips a report when the merged state has as many records as before, as if that
  meant nothing had changed. What was read may be valid and over K. The board is then the same exactly when the
  merge brought no continuation and no fraud at or below the head (`Finality.BoardStaysIff`), and an undecided
  game is still undecided exactly when nothing the merge brought decides it (`Finality.VerdictStaysIff`); both
  are lifted to `Watch.Watcher.Join`. A base within K leaves only a live claim or agreement to miss
  (`Finality.SameSizeVerdictIff`). `Witness.SizeHidesMoveExample` is a mate it hides, `Witness.SizeHidesDrawExample` and
  `Witness.SizeHidesClaimExample` are draws.
* `common/src/delegate_policy.rs:86-99` and `153-161` refuse unknown record formats so that the ply counter is never
  reset. Refusing makes the record read as absent, and a plain bind of the same label to the same game then
  writes a fresh one. A bind that writes keeps the counter exactly when the label's index leads to a record of
  format 2 or 3 (`OneSignature.BindKeepsCounterIff`). `Witness.ResetForfeitsExample` goes on to sign a second
  move at one ply, which forfeits.
* `client/src/session.rs:580-586` reads a record of the opponent's on the previous contract, absent here, as a move
  that has not come across. Eviction here may have dropped it. It is really missed exactly when it has fewer
  than K rivals here (`Watch.WarningIsTrueIff`); `Witness.FalseWarningExample` is a warning that is false.
* `ui/src/node.rs:412-450` gives a request the next answer, whoever it was meant for. If the node answers every
  request once and in order, an answer is the request's own exactly when as many requests were lost before
  as late answers were skipped (`Queue.BrowserClient.NextResponse`).
* `client/src/session.rs:234-242` says that when the rebind does not succeed the delegate still points at the old
  contract. The delegate makes two writes and then answers. If the first lands and the second fails, or the
  answer is lost, the client sees an error and the delegate points at the new contract
  (`Migration.RebindLands`, `Migration.Node.MigrateLabel`, `Witness.FailedRebindExample`). Nothing is lost by that.
* The same comment reasons about one attempt at a time. When a second one has moved the game on, a rebind that lands
  late can point the delegate at a contract that lacks what was played since (`Witness.LateRebindExample`). It
  leaves nothing behind while the attempt is up to date (`Migration.LandingLeavesNothing`), as it stays while nobody
  moves the game or writes to the contract it read (`Migration.NothingLeftBehind`).
* After a delta in one direction the sender may keep offering what the receiver evicted.
  `Sync.OneWaySettlesIff` says exactly when it falls silent, `Witness.OneWayExample` shows it speaking; one exchange in each direction always
  settles (`Sync.ExchangeSettles`).

## Model

| member | source | states |
|---|---|---|
| State.GameState.Absorb | common/src/state.rs:161-184 | with its shortcuts, one record lands in its slot exactly when it verifies and the slot is free, unverified, or signed with a larger signature |
| State.GameState.Evict | common/src/state.rs:211-228 | the two-pass loop keeps exactly the ungrouped records and those with fewer than K smaller ids in their group |
| State.CollectGroups | common/src/state.rs:212-219 | the first pass lists every group's ids, all of them, once, ascending |
| State.GameState.Merge | common/src/state.rs:236-241 | absorbing in id order and evicting once is the slot-by-slot join followed by eviction |
| State.GameState.ApplyDelta | common/src/state.rs:289-294 | absorbs a delta record by record, repeats and forgeries included, then evicts once |
| State.GameState.InsertVerified | common/src/state.rs:250-254 | the same for one record; answers true iff one of the two players signed exactly it at an index, if any, of at most 4096; otherwise the state is only evicted |
| State.GameState.FilterValid | common/src/state.rs:258-262 | a fresh state, the merge into the empty one; the receiver is unchanged |
| Types.GenuineIsVerified | common/src/types.rs:282-303 | a record verifies iff one of the two players signed its body and its index, if any, is at most 4096 |
| Admission.OnlyGenuineEnters | common/src/state.rs:161-294 | after any merges and deltas of anything, from an empty or genuine state, every record held is genuine in that sense |
| Admission.TopMeans | common/src/state.rs:211-228 | eviction keeps every resignation, a move behind at most one smaller id of its player and ply, and any other statement only if it is the smallest of its player, kind and ply |
| Admission.StateMeans | common/src/state.rs:161-228 | of all received, exactly the genuine statements with room for them are held, each under its smallest genuine signature |
| TopK.TopOfUnions | common/src/state.rs:191-199 | topK(topK(A) ∪ topK(B)) = topK(A ∪ B) |
| TopK.GroupFloor | common/src/state.rs:201-210 | eviction floors a group: it keeps exactly min(size, K) of it |
| Algebra.EvictedIsTop | common/src/state.rs:211-228 | on records under their own ids, eviction is top-K of the ids alone |
| Algebra.EarlyEviction | common/src/state.rs:186-199 | a peer's evicted state is as good as everything it ever received, signatures included |
| Algebra.MergeIsUnion | common/src/state.rs:236-241 | merging into an all-valid state, from anything, is union of what the two sides received |
| Algebra.ApplyIsUnion | common/src/state.rs:289-294 | so is applying a delta |
| Algebra.MergeCommutes | common/src/state.rs:230-236 | merge is commutative on valid states, colliding signatures included |
| Algebra.MergeAssociates | common/src/state.rs:230-236 | merge is associative, the last operand arbitrary |
| Algebra.MergeIdempotent | common/src/state.rs:230-236 | merge is idempotent on valid, within-K states |
| Algebra.MergeIdentity | common/src/state.rs:230-236 | the empty state is the identity on both sides |
| Algebra.MergeDominates | common/src/state.rs:230-241 | a merge is valid and within K, and merging either side again changes nothing |
| Sync.DeltaAgainst | common/src/state.rs:281-287 | exactly the records missing from the summary or summarized under another signature, in id order |
| Sync.DeltaRefinesMerge | common/src/state.rs:268-294 | applying the delta against a summary equals merging the whole state, whatever either side holds |
| Sync.DeltaEmpty | common/src/state.rs:281-287 | a delta is empty iff the other peer holds every record here, signature included |
| Sync.ExchangeSettles | common/src/state.rs:268-294 | one exchange in each direction makes both peers equal, dominating both, and every later delta empty |
| Sync.OneWaySettlesIff | common/src/state.rs:281-294 | after one direction the sender falls silent iff the receiver beat none of its records |
| Sync.FilteredIs | common/src/state.rs:256-262 | filtering keeps the top-K of the valid records with their signatures, and is the normal form of the contents |
| Sync.FilterCommutesIff | common/src/state.rs:155-160 | merge and filter commute iff no forged record in the base crowds a valid one out of its group |
| Sync.FivePerPly | common/src/types.rs:49-61 | one signer holds at most five records at one ply |
| Sync.StateBounded | common/src/types.rs:30-61 | a valid, within-K state has at most 40,972 records |
| Convergence.AnswerIsComplete | common/src/state.rs:281-287 | a delta answering a summary, however stale, tells its addressee everything the sender knew |
| Convergence.RunKeeps | common/src/state.rs:161-294 | along any run of inserts, posts, forgeries and deliveries every state is the state of what its peer received |
| Convergence.StrongConvergence | common/src/state.rs:161-294 | after any run, peers that received the same valid records hold the same state |
| Admission.PeersHoldGenuine | common/src/state.rs:161-294 | over any network, forgers included, every peer holds genuine records only |
| Codecs.EncodeState | common/src/state.rs:39-44 | a state becomes the sequence of exactly its records, in ascending id order |
| Codecs.DecodeState | common/src/state.rs:45-62 | a sequence decodes iff no id repeats, to exactly its records under their own ids |
| Codecs.StateRoundTrip | common/src/state.rs:39-62 | what an encoding decodes to is the state that was encoded |
| Codecs.Pack | common/src/state.rs:110-119 | 64 bytes per entry, one entry per id, ascending |
| Codecs.Unpack | common/src/state.rs:121-140 | refused iff misaligned or an id repeats; otherwise the map of the entries |
| Codecs.UnpackUnique | common/src/state.rs:110-140 | unpacking a packed summary returns it: a buffer has one map |
| Codecs.RepackIsIdentityIff | common/src/state.rs:110-140 | packing an unpacked buffer gives it back iff its ids strictly ascend |
| Contract.ValidateState | contracts/adjourn-contract/src/lib.rs:66-84 | answers true for a readable state iff every record in it is genuine, over K or not; no bytes are valid |
| Contract.UpdateState | contracts/adjourn-contract/src/lib.rs:86-162 | succeeds iff the base is readable and every update is fault-free (`Yields`), answering the state of all the records supplied, valid and within K; otherwise it reports the first fault |
| Admission.CallSucceedsIff | contracts/adjourn-contract/src/lib.rs:86-162 | a call succeeds iff the base decodes, every state half decodes with distinct statements, no delta is garbage, every record carried is genuine and no update is unknown; it answers the state of exactly the base's records and those brought |
| Admission.RefusedBecause | contracts/adjourn-contract/src/lib.rs:99-158 | which error each kind of update draws, its state half before its delta half, decoding before signatures; related contracts never draw one |
| Admission.ContractHoldsGenuine | contracts/adjourn-contract/src/lib.rs:86-162 | what a call answers holds genuine records only |
| Contract.SummarizeState | contracts/adjourn-contract/src/lib.rs:164-178 | summarizes the normal form of the base |
| Contract.GetStateDelta | contracts/adjourn-contract/src/lib.rs:180-219 | the delta of the normal form, as zero bytes iff it is empty |
| Contract.UpdateIgnoresOrder | contracts/adjourn-contract/src/lib.rs:99-158 | the order of the base's records, and the order and repetition of the updates, change neither whether the call succeeds nor its answer |
| Contract.UpdateBatches | contracts/adjourn-contract/src/lib.rs:99-158 | split in two, the first output encoded as the second base, the calls succeed iff the whole call does and answer the same |
| Contract.BatchedEviction | contracts/adjourn-contract/src/lib.rs:99-158 | one eviction per batch equals one per record |
| Contract.CraftedBaseReportsNormal | contracts/adjourn-contract/src/lib.rs:92-97 | a crafted over-K or partly forged base and its normal form report the same state |
| Chess.WalkIsMaximal | common/src/project.rs:118-203 | where continuations are unambiguous, every legal parent-linked chain is a prefix of the walk |
| Project.CountMoves | common/src/project.rs:244-253 | the counting loop gives every signer and ply the number of its move records |
| Project.DoubleSigned | common/src/project.rs:244-277 | blames exactly the players with two moves at one ply, the winner by who is blamed, the least such ply |
| Verdicts.FirstFraudMeans | common/src/project.rs:244-277 | there is a fraud iff some player has two moves at one ply, and its ply is the least such |
| Project.FindCandidates | common/src/project.rs:132-168 | in id order, exactly the moves at this ply that name this parent, by the player whose ply it is, legal in this position |
| Project.Walk | common/src/project.rs:118-203 | the loop computes the maximal chain; `repetitions` is the number of replayed positions, start included, sharing the final key; the automatic draw is flagged iff five occurrences or 150 half-moves are reached |
| Verdicts.GameIsComplete | common/src/project.rs:118-203 | the chain is a game: each move follows the one before at the next ply, naming it, by the player to move, legal in the position reached; nothing ends it early; it goes on until a fifth occurrence, 150 half-moves, a double move or nothing to follow |
| Verdicts.CompleteIsGame | common/src/project.rs:118-203 | there is no other such game in the records |
| Verdicts.ChainIsLinked | common/src/project.rs:150-152 | every chain move names the move before it, the first the genesis, at its ply and by its player |
| Verdicts.EndsIsHalts | common/src/project.rs:178-195 | the automatic draw is five occurrences or 150 half-moves, and the repetition count that of the positions passed through |
| Project.FindResignations | common/src/project.rs:357-370 | which players have resigned |
| Project.ReadsIds | common/src/project.rs:291-355 | the two draw searches, over records, decide properties of the id set |
| Project.ProjectState | common/src/project.rs:382-492 | chain, verdict by precedence, clocks and ignored count are functions of the id set alone |
| Verdicts.ForfeitMeans | common/src/project.rs:417-422 | a forfeit iff somebody moved twice at one ply; the other player wins if only one did, nobody if both |
| Verdicts.ResignationMeans | common/src/project.rs:423-435 | otherwise a sole resignation is won by the other player, and two are nobody's |
| Verdicts.BoardMeans | common/src/project.rs:386-415 | otherwise mate is won by the side not to move, then stalemate, insufficient material and the automatic draws, in that order |
| Verdicts.StatementMeans | common/src/project.rs:436-467 | otherwise a claim by the player to move at the head, threefold from three occurrences before fifty moves from 100 half-moves, then an offer at the head accepted by the other player, then nothing |
| Verdicts.WinnerDeservesIt | common/src/project.rs:382-467 | whoever wins moved twice nowhere, did not resign alone and is not the one mated, and the other did, did or is |
| Finality.NeverAChoice | common/src/project.rs:118-203 | the arm for two or more candidates is unreachable: the walk stops at the fraud first |
| Finality.ChainIsMaximal | common/src/project.rs:118-203 | every legal chain below the fraud ply is a prefix of the accepted one |
| Finality.ChainEnds | common/src/project.rs:170-203 | the accepted chain is legal and stops only at an automatic draw, at the fraud ply or where nobody has moved |
| Finality.ChainIsShort | common/src/project.rs:118-203 | on verified plies the counter stays within 4097 and the turn is the colour of the next ply |
| Finality.NoPrefixWasOver | common/src/project.rs:124-195 | no proper prefix of the chain had ended the game: it stops at the first such position |
| Finality.EvictionKeepsFraud | common/src/state.rs:201-210 | eviction neither dissolves nor invents a fraud: same blamed, same winner, same first ply |
| Finality.EvictionKeepsChain | common/src/state.rs:211-228 | the game read from an evicted state is the game read from the whole one |
| Finality.RunIsLater | common/src/state.rs:236-294 | the ids after any run of merges and deltas, of anything at all, are one eviction of a superset |
| Finality.FraudIsPermanent | common/src/project.rs:220-277 | along any run of merges and deltas a fraud stays, the blamed set only grows, the first ply only falls |
| Finality.OnlyFraudRewinds | common/src/project.rs:118-203 | without fraud the chain only grows; with it, what lies below the first fraud ply still stands |
| Finality.BoardStaysIff | common/src/project.rs:118-203 | from any base, after any merges, the board is the same iff they brought no fraud at or below the head and, before any halt or fraud, no continuation |
| Finality.VerdictStaysIff | common/src/project.rs:382-492 | an undecided game is still undecided iff the merge brought no second move at one ply, no resignation, and no line from the old board that ends in a decided position or in a live claim or agreement |
| Finality.OneLine | common/src/project.rs:118-203 | without a fraud exactly one line of legal moves goes on from the old board to where nothing continues it, and it is the new board |
| Finality.ForfeitIsFinal | common/src/project.rs:382-467 | a forfeit stays a forfeit, and its winner never becomes the loser |
| Finality.ResignationIsFinal | common/src/project.rs:382-467 | a resignation becomes only itself, mutual resignation or a forfeit |
| Finality.BoardResultIsFinal | common/src/project.rs:382-467 | mate, stalemate and automatic draw change only to resignation or forfeit, the chain only by forfeit |
| Finality.InsufficientMaterialStandsIff | common/src/project.rs:170-195 | short of resignation and forfeit, a draw by insufficient material stands while the chain does, and the chain moves on iff someone continues it before an automatic draw stops it |
| Finality.FullGroupSwap | common/src/types.rs:49-61 | exchanging members of a full group changes no chain, no fraud and no resignation |
| Finality.SameSizeSameGame | client/src/session.rs:743-754 | a merge never shrinks a within-K state, and one that keeps its size keeps chain, fraud and resignations |
| Finality.ClaimHasNoRace | common/src/project.rs:318-355 | a valid claim survives anything its claimant's opponent adds short of resigning or forfeiting |
| Finality.SameSizeVerdictIff | client/src/session.rs:743-754 | from a within-K base, a merge that keeps the number of records keeps the board, and decides an undecided game iff it brings a live claim with ground or a live agreement |
| Finality.AgreementStandsIff | common/src/project.rs:278-316 | an acceptance survives the offerer; the offer and the head survive iff the offerer adds no lower-id offer in the slot and no continuation, the latter possible only on the offerer's turn |
| Finality.StandingAgreementDraws | common/src/project.rs:278-316 | while offer, acceptance and head stand, the game is drawn: by agreement, unless the mover now has a live claim with ground |
| Finality.AgreementHasNoRace | common/src/project.rs:278-316 | with the acceptor to move, nothing the offerer adds short of resigning or forfeiting moves the chain; the decision stays iff an accepted offer is left at the head, as it is while this offer survives eviction |
| Finality.ChainAdvancesIff | common/src/project.rs:132-195 | new records move the head iff one of them continues the chain |
| Finality.FirstSignatureAdvances | client/src/session.rs:898-941 | a player's first signature at the next ply, naming the head and legal there, becomes the head, and is no fraud |
| Finality.ChainIsInState | client/src/session.rs:471-480 | every id of the chain names a move record, so the move list read off it skips nothing |
| Delegate.Keeper.StoreGame | delegates/adjourn-delegate/src/secrets.rs:142-149 | two ordered writes, the second only if the first was reported, each possibly lost or landed unreported |
| Grants.StoreMeans | delegates/adjourn-delegate/src/secrets.rs:142-149 | the record unless its write is lost; the index only once that is reported, unless its own is lost; nothing else |
| Delegate.Keeper.HandleCreateGameKey | delegates/adjourn-delegate/src/lib.rs:44-83 | the resulting store and response for every pattern of failing writes |
| Grants.CreatedIff | delegates/adjourn-delegate/src/lib.rs:44-83 | granted iff the name is free, the seed derived and every write reported; key, quality and owner are then on record |
| Grants.CreateStores | delegates/adjourn-delegate/src/lib.rs:72-77 | exactly which of the three writes are made, for every pattern of failures |
| Delegate.Keeper.HandleBindGame | delegates/adjourn-delegate/src/lib.rs:85-143 | binding checks key, owner and both indices before any write |
| Grants.BoundIff | delegates/adjourn-delegate/src/lib.rs:85-143 | granted iff to the label's owner, with both writes reported, again for the game and caller on record, or afresh for a key that plays in the game and no other label's record; what it then writes, field by field; WrongOrigin to anyone else |
| Delegate.Keeper.HandleRebind | delegates/adjourn-delegate/src/lib.rs:151-170 | rebinding goes through the label's index and one game write |
| Grants.ReboundIff | delegates/adjourn-delegate/src/lib.rs:151-170 | granted iff to the caller on record, with both writes reported; only the two addresses change; WrongOrigin to anyone else |
| Delegate.Keeper.LocallyKnownToBeIllegal | delegates/adjourn-delegate/src/lib.rs:176-204 | an opinion only on moves, with a replica, over or at the same ply |
| Delegate.Keeper.HandleSign | delegates/adjourn-delegate/src/lib.rs:206-238 | a signature leaves only after the updated record was reported stored |
| Grants.SignedIff | common/src/delegate_policy.rs:321-380 | a signature is released iff the record is readable, its caller is asking, its key is held, the state at hand does not show the move illegal, both writes are reported, and a move is within the cap, on its side's turn and past the counter or the same again; WrongOrigin to anyone else |
| Grants.SignStores | delegates/adjourn-delegate/src/lib.rs:223-236 | what is written before that, and that any other refusal writes nothing |
| Delegate.Keeper.HandleListGames | delegates/adjourn-delegate/src/lib.rs:240-284 | one summary for each label the caller created, bound or not, and the store unchanged |
| Grants.ListedIff | delegates/adjourn-delegate/src/lib.rs:240-284 | a summary is listed iff its label is the caller's and each of its fields is what is on record |
| Delegate.Keeper.Handle | delegates/adjourn-delegate/src/lib.rs:286-305 | one call of any of the five kinds, its store and its response, as a function of the old store |
| OneSignature.NewStoreIsSafe | common/src/delegate_policy.rs:162-175 | a store nothing was released from satisfies the invariant whatever formats its records are in |
| OneSignature.BindKeeps | common/src/delegate_policy.rs:196-246 | binding, new or again, keeps every release covered, releases being behind records this build can read |
| OneSignature.BindKeepsCounterIff | common/src/delegate_policy.rs:153-246 | over any filed store, a bind that writes keeps the game's counter iff the label's index leads to a record of format 2 or 3; otherwise it is zero |
| OneSignature.RebindKeeps | common/src/delegate_policy.rs:266-303 | rebinding keeps every release covered |
| OneSignature.SignKeeps | delegates/adjourn-delegate/src/lib.rs:206-238 | signing, granted or failed half-way, keeps one body per ply |
| OneSignature.OneSignaturePerPly | delegates/adjourn-delegate/src/lib.rs:85-238 | after any run of calls and failures, released moves have one body per game and ply, of the bound side's parity, in 1..4096, and the stored counter is past them all |
| OneSignature.HonestPlayerNeverForfeits | common/src/project.rs:244-277 | a player all of whose moves came from the delegate is never blamed, in any state |
| Grants.OneCallerPerGame | delegates/adjourn-delegate/src/lib.rs:206-238 | over any run, with any failures, all signatures ever released for a game went to one caller, the one on record |
| Grants.CallKeepsRecorded | common/src/delegate_policy.rs:196-303 | a game on record for a caller under a working index stays so, whoever asks for what |
| Grants.LabelKeepsOwner | delegates/adjourn-delegate/src/lib.rs:44-83 | a label keeps its key and owner over any run |
| Grants.CallKeepsOwnersKeyed | delegates/adjourn-delegate/src/lib.rs:65-80 | a created label is its creator's, in any store where owners have keys, as they always do from an empty one |
| OneSignature.ListingIsPrivate | delegates/adjourn-delegate/src/lib.rs:240-251 | a summary is listed iff the caller created its label and it is that label's present summary |
| OneSignature.RetryIsGranted | common/src/delegate_policy.rs:321-380 | the latest move can be asked for again |
| OneSignature.OtherMoveIsRefused | common/src/delegate_policy.rs:321-380 | a different move at that ply or an earlier one is refused, to any caller |
| OneSignature.FailedCreateLeavesNothingIff | delegates/adjourn-delegate/src/lib.rs:65-80 | a failed creation leaves the store as it was iff its first write was lost; otherwise the name is taken |
| OneSignature.ReleaseVerifiesIff | common/src/delegate_policy.rs:321-380 | a released record verifies iff its index is within the cap, which moves always are |
| Network.World.Update | client/src/fake.rs:215-241 | runs the contract: accepted iff the contract exists and every record verifies, state and log extended together |
| Network.World.Put | client/src/fake.rs:201-213 | overwrites and logs |
| Network.FakeNode.Get | client/src/fake.rs:165-199 | answers the stored state and subscribes at most once, from the current end of the log |
| Network.FakeNode.NextUpdate | client/src/fake.rs:247-273 | the first heard entry at or after the cursor; None iff there is none, and the cursor never stalls on the rest |
| Network.PutKeepsStepIff | client/src/fake.rs:201-213 | an overwriting PUT of valid records, over K or not, leaves a subscriber in step iff what it writes contains what it overwrites |
| Network.UpdateKeepsStep | client/src/fake.rs:215-241 | no update by anyone is lost to a subscriber, whatever valid state the contract held |
| Network.SettledIs | contracts/adjourn-contract/src/lib.rs:92-97 | what the contract makes of its bytes is their filtering, valid and within K, and is those bytes iff they already were |
| Network.SubscribeMerge | client/src/session.rs:735-742 | the subscribing GET's answer, merged into what was read, gives exactly what the contract amounts to |
| Network.StartsInStepIff | client/src/fake.rs:165-199 | a node already subscribed starts in step, holding what the contract amounts to, iff the contract contains all it has still to be told |
| Network.InStepIsCaught | client/src/fake.rs:165-199 | a subscriber in step meets that condition, so it can stop and follow again |
| Network.NothingPending | client/src/fake.rs:247-273 | with nothing left to hear, what is held is what the contract amounts to |
| Watch.Watcher.constructor | client/src/session.rs:706-720 | opens without subscribing, and the first report is the board and verdict of what was read |
| Watch.Watcher.RefreshPreviousState | client/src/session.rs:626-650 | infallible: an error or bytes that do not decode only mark the previous contract; no bytes say nothing; anything else, an encoded empty state included, is cached |
| Watch.RefreshedMeans | client/src/session.rs:633-650 | what an answer, an error, or bytes that do not decode leave of what was known of the previous contract, and whether it is asked again |
| Watch.Watcher.RecomputeSkew | client/src/session.rs:665-680 | calls back only on a transition, so callbacks alternate starting with a warning |
| Watch.Watcher.Turn | client/src/session.rs:792-886 | one turn, whatever its GET meets and others write meanwhile, keeps the watcher in step and its skew flag right; it delivers the next entry iff one is left, reports once if that is its own contract's, and asks for the previous contract again if it is that one's |
| Watch.SubscribeBoard | client/src/session.rs:743-754 | what the subscribing merge does to board and verdict, for any valid state read and held by the contract |
| Watch.Watcher.Join | client/src/session.rs:722-755 | merging the answer closes the window before the subscription, new or old; the last reported board and verdict are the state's iff the size changed or the merge brought nothing that changes them |
| Watch.SoleReport | client/src/session.rs:743-754 | how far the first report can be trusted while it is the only one, and what is left of that within K |
| Watch.LookBack | client/src/session.rs:757-790 | the check of the previous contract subscribes to it, caches what it answers, leaves the skew flag right and does not disturb the watch |
| Watch.Follow | client/src/session.rs:792-886 | the first report of an ended game is the last thing done; left alone for as many turns as there are entries left, the loop delivers everything |
| Watch.Session | client/src/session.rs:706-886 | over any interleaving with other writers, before and after subscribing and between the watcher's own calls, by a node new or already subscribed, with every GET of the previous contract failing or not: with nothing left to hear, the held state is the contract's filtered, and the contract's own iff that is within K; reports are accounted for; the skew flag answers the comparison, and its callbacks alternate; another session can begin where it ends |
| Watch.FirstSession | client/src/fake.rs:165-273 | the same from any world without the contract, its first PUT included, over K or not, by a new node |
| Watch.DrainedHolds | client/src/session.rs:792-801 | the same conclusion from the state alone: in step and nothing heard left |
| Watch.WarningIsTrueIff | client/src/session.rs:580-600 | the warning is up iff some opponent's record there is absent here, and such a record is missed here iff it has fewer than K rivals here |
| Queue.BrowserClient.TakeFrame | ui/src/node.rs:132-189 | one frame consumed and routed; only a close latches, the first reason wins |
| Queue.BrowserClient.NextRouted | ui/src/node.rs:412-428 | parks notifications on the way to an answer; refuses without reading once latched |
| Queue.BrowserClient.NextResponse | ui/src/node.rs:412-450 | what it answers for each kind of frame it can stop at, reading past notifications only; it is the request's own answer iff as many requests were lost before as late answers skipped |
| Queue.BrowserClient.Get | ui/src/node.rs:495-543 | the same, reading past subscribe acknowledgements too; absence only for a missing-contract error or a not-found answer |
| Queue.BrowserClient.NextUpdate | ui/src/node.rs:613-646 | parked first, then the latch, then the inbox; waits only when unlatched and both queues are empty; counts the late answers it skips |
| Queue.FirstCloseIsFirst | ui/src/node.rs:132-150 | the latch holds the reason of the first close read, and is empty iff none was |
| Queue.LatchesIffSocketDied | ui/src/node.rs:122-150 | the frames read latch a close iff among them is a closed socket or channel, or a connection error whose source is "close" or "exec error", and with the first one's reason |
| Queue.BrowserClient.Arrive | ui/src/node.rs:304-348 | a result or a transport error puts one frame at the end of the inbox and latches nothing |
| Queue.FrameOfMeans | ui/src/node.rs:304-348 | a result becomes an answer, the death of the socket a close, any other transport error a failure |
| Queue.NotesAre | ui/src/node.rs:173-189 | frame by frame, only an update notification is a notification, and every other frame but a close and an acknowledgement is an answer |
| Queue.Converse | ui/src/node.rs:412-646 | over any interleaving, delivered then parked equals the notifications read, in order; consumed then waiting equals what arrived; a client unused before is latched iff it has read its socket's death; with no request lost and no answer skipped every request reads its own answer |
| Migration.PutContains | client/src/session.rs:236-242 | a merging PUT keeps what any contract contained and adds what was put |
| Migration.StepKeeps | client/src/session.rs:249-322 | every step of every attempt, and of everyone else, keeps the invariant |
| Migration.MigrationIsSafe | client/src/session.rs:249-322 | after any run of interrupted and repeated attempts, with any of the delegate's writes lost or unreported, its contract holds what was read for it, `previous` is never the current one, and counter and body hash are untouched |
| Migration.LandingLeavesNothing | client/src/session.rs:249-322 | a landing rebind of an attempt whose copy still has all the recorded contract holds points the delegate at a contract that contains it |
| Migration.NothingLeftBehind | client/src/session.rs:249-322 | an attempt stays such, whatever else happens, while nobody moves the game or writes to the contract it read |
| Migration.FetchIsUpToDate | client/src/session.rs:268-290 | an attempt is such as soon as it has read the recorded contract |
| Migration.InterruptionIsHarmless | client/src/session.rs:234-242 | however many attempts run and stop, until a rebind lands the delegate knows what it knew, every contract still holds all it held, and no record is anywhere that was nowhere before |
| Migration.RebindLands | delegates/adjourn-delegate/src/lib.rs:151-170 | the handler moves the label's record iff the record's own write landed, and says so iff both writes were reported |
| Migration.RerunCompletes | client/src/session.rs:238-242 | running again to the end points the delegate at the target, which holds all the old contract held |
| Migration.Node.MigrateLabel | client/src/session.rs:249-322 | one attempt, cut off after any call or write: the record moves iff a granted rebind is reached and its first write lands; success is reported iff both writes were reported and the answer arrived; already current iff the target is recorded |
| Witness.AssumptionsHold | common/src/types.rs:243-264 | collision-free ids, fair rules and a sound host exist |
| Witness.ForgeryBreaksCommuting | common/src/state.rs:155-160 | any forged lower-id record in the base breaks commuting |
| Witness.ForgeryExample | common/src/state.rs:155-160 | two concrete states on which filtering before and after merging differ |
| Witness.OneWayReoffers | common/src/state.rs:281-294 | a sender re-offers what the receiver evicted |
| Witness.OneWayExample | common/src/state.rs:281-294 | two concrete states whose one-way delta is refused and offered again |
| Witness.MovingOnExample | common/src/project.rs:282-287 | an agreed draw is gone after its offerer moves on |
| Witness.DisplacingExample | common/src/project.rs:282-287 | an agreed draw is gone after an offerer not to move publishes a lower-id offer |
| Witness.FailedCreateExample | delegates/adjourn-delegate/src/lib.rs:65-80 | a creation reported as failed that leaves its key behind and its name taken |
| Witness.BindResetsExample | common/src/delegate_policy.rs:162-175 | a bind that resets a positive counter behind an unknown format |
| Witness.ResetForfeitsExample | common/src/delegate_policy.rs:86-99 | after that a different move at the counter's ply is signed, and the two forfeit the game |
| Witness.FailedRebindExample | client/src/session.rs:234-242 | a rebind reported as failed after which the record points at the new contract |
| Witness.LateRebindExample | client/src/session.rs:234-242 | a late rebind that leaves behind what was played since |
| Witness.FalseWarningExample | client/src/session.rs:591-600 | a skew warning about a record that eviction dropped |
| Witness.SizeHidesDrawExample | client/src/session.rs:743-754 | a draw becomes agreed while the number of records stays the same |
| Witness.SizeHidesClaimExample | client/src/session.rs:743-754 | a draw is claimed while the number of records stays the same |
| Witness.SizeHidesMoveExample | client/src/session.rs:743-754 | what was read is over K; a mating move arrives while the number of records stays the same |

## Left out

- SHA-256, ed25519, CBOR, base58 and entropy derivation: functions without collisions and an arbitrary signature predicate stand in; undecodable bytes are one value, `Garbage`.
- Chess itself, FEN, castling spellings and the canonical spelling made by `make_move`: a `Rules` value stands in, and `Host.legal` lists the legal spellings.
- The order in which `BTreeMap`s of groups, of counts and of labels are visited: the loops take any order, and a listing is a set of summaries.
- Delegate.Keeper.HandleCreateGameKey: takes the outcome of seed derivation as a parameter, and a store write as one of written, lost or landed unreported.
- Delegate.Keeper.LocallyKnownToBeIllegal: requires a decoded replica to file records under their own ids, which the source's decoder guarantees.
- The store's bytes: label and id indices are maps, so a malformed value under a key is not modelled.
- Status.ignored: proved to be the count of off-chain moves, but not a convergence quantity, since eviction may change it.
- Sync.StateBounded: counts records; the bytes of a record are not bounded in the model.
- Watch.Session: a PUT by someone else contains what it overwrites (a first PUT always does, `Watch.FirstSession`), and a node already subscribed has nothing still to be told that a PUT has overwritten since; otherwise `Network.PutKeepsStepIff` and `Network.StartsInStepIff` say the watcher is out of step. What contracts store is valid, as `validate_state` demands. The watch ends without an error: failing GETs of the current contract, undecodable payloads and a broken channel, which end the watch with an error, are not modelled.
- Queue.BrowserClient.NextResponse: whose an answer is rests on the node answering every request once and in order, which the transport does not check; a failure of the transport's own counts as an answer.
- `StateAndDelta` notifications: the modelled node logs only whole states and deltas, as the source's does.
- The check that this build derives the recorded contract address, the other pre-checks of `play_move`, and the resign and draw commands: guards before a signature the delegate judges again.
- Migration.PutContains: a PUT merges at the network, the assumption stated at `client/src/session.rs:239-241`; the in-memory node overwrites, which `Watch` models.
- Undecodable contract parameters: the contract answers them with a decoding error before anything else (an empty state alone is validated first); here a game's parameters are always readable.
- Timers: a timeout is an inbox found empty. WebSocket framing, wasm closures and the socket's own recovery are not modelled.
- `put_raw`, `absorb_for_test`, `sign_move_at_ply` and `fail_next_put`: their ideas appear as forged states and failing writes.
- Invitations, the command line, the browser views and rendering.
