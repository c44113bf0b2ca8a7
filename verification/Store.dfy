/** The stored players and games, and what each statement or transaction of the store does to them. */
module Store {
  import opened Wrappers
  import opened Rules
  import opened Timestamps

  type PlayerId = nat
  type GameId = nat

  /** What a secret hashes to; a presented secret is represented by its digest. */
  type Digest = nat

  datatype Player = Player(base: string, discriminator: nat, digest: Digest, lastActive: Time)

  /** A seat is empty when its foreign key is NULL. */
  datatype Game = Game(digest: Digest, host: Option<PlayerId>, guest: Option<PlayerId>, state: State,
      lastActive: Time) {
    function SeatOf(p: PlayerId): Option<Seat> {
      if host == Some(p) then Some(Host) else if guest == Some(p) then Some(Guest) else None
    }

    function PlayerOf(seat: Seat): Option<PlayerId> {
      if seat == Host then host else guest
    }
  }

  datatype Db = Db(players: map<PlayerId, Player>, games: map<GameId, Game>) {

    /** A foreign key to a player is NULL or refers to a stored row. */
    predicate Refers(p: Option<PlayerId>) {
      p.None? || p.value in players
    }

    /** Every foreign key of every stored game refers to a stored player. */
    ghost predicate ForeignKeys() {
      forall g :: g in games ==> Refers(games[g].host) && Refers(games[g].guest)
    }

    /** The name and discriminator of a player are unique together. */
    ghost predicate UniqueNames() {
      forall p, q {:trigger players[p], players[q]} | p in players && q in players && p != q ::
        players[p].base != players[q].base || players[p].discriminator != players[q].discriminator
    }
  }

  datatype StoreError = NotFound | ForeignKey | Unique | Unavailable

  /** Touching a player who is not stored changes nothing and is no error. */
  function TouchPlayer(db: Db, p: PlayerId, now: Time): Db {
    if p in db.players then db.(players := db.players[p := db.players[p].(lastActive := now)]) else db
  }

  /** Writes every mutable column of a game; the digest is not one of them. */
  function UpdateGame(db: Db, id: GameId, g: Game): Result<Db, StoreError> {
    if id !in db.games then Failure(NotFound)
    else if !db.Refers(g.host) || !db.Refers(g.guest) then Failure(ForeignKey)
    else Success(db.(games := db.games[id := g.(digest := db.games[id].digest)]))
  }

  /** Writes a game and touches the acting player, if any, in one transaction. */
  function SaveGame(db: Db, id: GameId, g: Game, actor: Option<PlayerId>, now: Time): Result<Db, StoreError> {
    var updated := UpdateGame(db, id, g);
    if updated.Success? && actor.Some? then Success(TouchPlayer(updated.value, actor.value, now)) else updated
  }

  function CreateGame(db: Db, id: GameId, host: PlayerId, digest: Digest, now: Time): Result<Db, StoreError> {
    if id in db.games then Failure(Unique)
    else if host !in db.players then Failure(ForeignKey)
    else Success(TouchPlayer(db.(games := db.games[id := Game(digest, Some(host), None, NewState(), now)]), host, now))
  }

  function Unseat(g: Game, p: PlayerId): Game {
    g.(host := if g.host == Some(p) then None else g.host, guest := if g.guest == Some(p) then None else g.guest)
  }

  /** Deleting a player sets the foreign keys that referred to it to NULL. */
  function DeletePlayer(db: Db, p: PlayerId): Db {
    if p !in db.players then db
    else Db(db.players - {p}, map g | g in db.games :: Unseat(db.games[g], p))
  }

  function DeleteGame(db: Db, g: GameId): Db {
    db.(games := db.games - {g})
  }

  /** Whether a player sits in an open game. */
  predicate Seated(g: Game, p: PlayerId) {
    g.state.status != Closed && (g.host == Some(p) || g.guest == Some(p))
  }

  function OpenGamesOf(db: Db, p: PlayerId): set<GameId> {
    set g | g in db.games && Seated(db.games[g], p)
  }

  /** The expiry queries compare the stored text with the cutoff's text. */
  function ExpiredPlayers(db: Db, cutoff: Time): set<PlayerId> {
    set p | p in db.players && TextLess(FormatTime(db.players[p].lastActive), FormatTime(cutoff))
  }

  function ExpiredGames(db: Db, cutoff: Time): set<GameId> {
    set g | g in db.games && TextLess(FormatTime(db.games[g].lastActive), FormatTime(cutoff))
  }
}
