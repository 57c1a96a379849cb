/** Signed records and the parameters of one game (common/src/types.rs). */
module Types {

  datatype Option<+T> = None | Some(value: T)

  datatype Result<+T, +E> = Ok(value: T) | Err(error: E)

  /** Identifiers, keys, signatures and digests are compared as big-endian numbers. */
  type RecordId = nat
  type Key = nat
  type Sig = nat
  type Digest = nat
  type Uci = nat
  type ContractId = nat

  /** A `u16`. */
  type Ply = n: nat | n <= 0xFFFF

  const MAX_PLY: nat := 4096

  datatype Color = White | Black {
    function Other(): Color {
      if White? then Black else White
    }
  }

  /** Whose turn it is at a 1-indexed half-move. */
  function ColorAtPly(ply: nat): Color {
    if ply % 2 == 1 then White else Black
  }

  datatype Kind = KMove | KResign | KDrawOffer | KDrawAccept | KDrawClaim {
    /** How many records one signer may hold in one group. */
    function K(): nat {
      if KMove? then 2 else 1
    }
  }

  datatype Body =
    | Move(ply: Ply, parent: RecordId, uci: Uci)
    | Resign
    | DrawOffer(ply: Ply, at: RecordId)
    | DrawAccept(ply: Ply, offer: RecordId)
    | DrawClaim(ply: Ply, at: RecordId)
  {
    function Index(): Option<Ply> {
      if Resign? then None else Some(ply)
    }

    function Kind(): Kind {
      match this
      case Move(_, _, _) => KMove
      case Resign => KResign
      case DrawOffer(_, _) => KDrawOffer
      case DrawAccept(_, _) => KDrawAccept
      case DrawClaim(_, _) => KDrawClaim
    }
  }

  datatype Statement = Statement(signer: Key, body: Body) {
    /** Records compete for eviction only inside a group; `Resign` is in none. */
    function GroupOf(): Option<Group> {
      if body.Resign? then None else Some(Group(signer, body.Kind(), body.ply))
    }
  }

  datatype Group = Group(signer: Key, kind: Kind, ply: Ply)

  datatype Record = Record(signer: Key, body: Body, sig: Sig) {
    function Says(): Statement {
      Statement(signer, body)
    }
  }

  datatype Params = Params(white: Key, black: Key, nonce: nat) {
    function ColorOf(key: Key): Option<Color> {
      if key == white then Some(White) else if key == black then Some(Black) else None
    }

    function KeyOf(color: Color): Key {
      if color.White? then white else black
    }
  }

  /** One game: its parameters and the cryptography the records are made with.
      `recordId` hashes a signer and a body (never the signature), `says` undoes it,
      `digest` hashes a signature and `undigest` undoes it, and `signed` is signature
      verification against this game's identifier. */
  datatype Game = Game(params: Params,
                       genesis: RecordId,
                       recordId: Statement -> RecordId,
                       says: RecordId -> Statement,
                       digest: Sig -> Digest,
                       undigest: Digest -> Sig,
                       signed: (Statement, Sig) -> bool)
  {
    /** Hashes do not collide. */
    ghost predicate Sound() {
      && (forall s :: says(recordId(s)) == s)
      && (forall s :: undigest(digest(s)) == s)
    }

    function Id(rec: Record): RecordId {
      recordId(rec.Says())
    }

    /** A real statement by one of the two players; chess legality is not asked. */
    predicate Verify(rec: Record) {
      && params.ColorOf(rec.signer).Some?
      && (rec.body.Index().Some? ==> rec.body.Index().value <= MAX_PLY)
      && signed(rec.Says(), rec.sig)
    }

    /** One of the two players signed exactly this, at an index within the cap if it has one. */
    ghost predicate Genuine(rec: Record) {
      && (rec.signer == params.white || rec.signer == params.black)
      && signed(Statement(rec.signer, rec.body), rec.sig)
      && (rec.body.Resign? || rec.body.ply <= 4096)
    }

    function GroupOf(id: RecordId): Option<Group> {
      says(id).GroupOf()
    }
  }

  /** That is what verification finds out. */
  lemma GenuineIsVerified(g: Game, rec: Record)
    ensures g.Verify(rec) <==> g.Genuine(rec)
  {
  }
}
