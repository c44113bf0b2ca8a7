/** Activity times: what a player does is recorded, and nobody else can do it for them. */
module ProtocolActivity {
  import opened Wrappers
  import opened Timestamps
  import opened Store
  import opened Registry
  import opened Protocol
  import opened ProtocolDoes
  import opened ProtocolLocks
  import opened ProtocolInvariant
  import opened ProtocolBody
  import opened ProtocolSafety

  /** The time a player was last active, if the player is stored. */
  function LastSeen(db: Db, p: PlayerId): Option<Time> {
    if p in db.players then Some(db.players[p].lastActive) else None
  }

  function LastPlayed(db: Db, g: GameId): Option<Time> {
    if g in db.games then Some(db.games[g].lastActive) else None
  }

  /** Who a goroutine acts for: the player its connection is, or is becoming. */
  function Actor(sh: Shared, t: Tid, phase: Phase): Option<PlayerId> {
    match phase
    case Out(AuthTouch(p)) => Some(p)
    case _ => if t.Reader? then sh.PlayerOn(t.Mine()) else None
  }

  /** The player an effect stamps, and the time. */
  function Stamps(e: Effect): Option<(PlayerId, Time)> {
    match e
    case Touch(p, now) => Some((p, now))
    case Save(_, _, Some(p), now, _, _) => Some((p, now))
    case Found(_, host, _, now) => Some((host, now))
    case _ => None
  }

  lemma DoStamps(sh: Shared, e: Effect, p: PlayerId)
    requires match e case Enlist(q, _) => q !in sh.db.players case _ => true
    ensures
      var db' := Do(sh, e).db;
      || LastSeen(db', p) == LastSeen(sh.db, p) || LastSeen(sh.db, p).None? || LastSeen(db', p).None?
      || exists now :: Stamps(e) == Some((p, now)) && LastSeen(db', p) == Some(now)
  {
    hide Bind, Forget, Attach, Detach, DetachSet, AddConn, Send, Close;
  }

  /** A goroutine stamps only the player it acts for, with the time of its step. */
  lemma GoStamps(w: World, t: Tid, ch: Choice)
    requires Inv(w) && t in w.threads
    ensures match Stamps(Does(w, Go(t, ch)))
      case Some((p, now)) => now == ch.now && Actor(w.sh, t, w.Phase(t)) == Some(p)
      case None => true
  {
    hide Inv, Local;
    match w.Phase(t)
    case Inside(g, _, i) =>
      BodyOf(w, t, ch);
      Savers(w.sh, t, g, i);
    case _ =>
  }

  /**
   * A stored player's activity time changes only by the player's own doing, and only to the time of doing it:
   * authenticating, connecting to a game, acting in one, or creating one.
   */
  lemma OnlyOwnActivityCounts(w: World, e: Event, p: PlayerId)
    requires Reached(w) && Enabled(w, e)
    requires LastSeen(w.sh.db, p).Some? && LastSeen(Step(w, e).sh.db, p).Some?
    requires LastSeen(Step(w, e).sh.db, p) != LastSeen(w.sh.db, p)
    ensures
      match e
      case Go(t, ch) =>
        && t in w.threads && Actor(w.sh, t, w.Phase(t)) == Some(p) && LastSeen(Step(w, e).sh.db, p) == Some(ch.now)
      case NewGame(_, host, _, now) => host == p && LastSeen(Step(w, e).sh.db, p) == Some(now)
      case _ => false
  {
    hide Reached, Inv, Step, Do, FreeDoes, BodyDoes, Actor, LastSeen;
    Always(w);
    StepDo(w, e);
    assert match Does(w, e) case Enlist(q, _) => q !in w.sh.db.players case _ => true by {
      NewPlayersAreNew(w, e);
    }
    DoStamps(w.sh, Does(w, e), p);
    match e
    case Go(t, ch) => GoStamps(w, t, ch);
    case _ =>
  }

  lemma NewPlayersAreNew(w: World, e: Event)
    requires Inv(w) && Enabled(w, e)
    ensures match Does(w, e) case Enlist(p, _) => p !in w.sh.db.players case _ => true
  {
    hide LockInv, Justified, RegOk, SeatsHeld, LogsOk, HistoriesOk, CanRun;
  }

  /** A save of game g by a connection stamps the game and the connection's player; an expiry's save stamps neither. */
  ghost predicate SaveStamps(sh: Shared, sh': Shared, t: Tid, g: GameId, now: Time) {
    sh'.Version(g) != sh.Version(g) ==>
      if t.Reader? then
        && LastPlayed(sh'.db, g) == Some(now)
        && match sh.PlayerOn(t.Mine())
           case Some(p) => LastSeen(sh'.db, p) == Some(now) || LastSeen(sh'.db, p) == None
           case None => false
      else LastPlayed(sh'.db, g) == LastPlayed(sh.db, g) && sh'.db.players == sh.db.players
  }

  /** Only saving a game makes a new version of it, and stamps it as the saved row says. */
  lemma DoVersions(sh: Shared, e: Effect, g: GameId)
    requires match e case Found(h, _, _, _) => h !in sh.saves case _ => true
    ensures Do(sh, e).Version(g) != sh.Version(g) ==>
      match e
      case Save(h, row, actor, now, _, _) =>
        var db' := Do(sh, e).db;
        && h == g && LastPlayed(db', g) == Some(row.lastActive)
        && (match actor
            case Some(p) => LastSeen(db', p) == Some(now) || LastSeen(db', p) == None
            case None => db'.players == sh.db.players)
      case _ => false
  {
    hide Bind, Forget, Attach, Detach, DetachSet, AddConn, Send, Close, DeletePlayer, DeleteGame;
  }

  /**
   * Whenever a game is saved for a connection, the game and the connection's player are stamped with the time of
   * the save; when it is saved for an expiry, no activity time changes.
   */
  lemma SavesAreStamped(w: World, t: Tid, ch: Choice, g: GameId)
    requires Reached(w) && Enabled(w, Go(t, ch))
    ensures SaveStamps(w.sh, Step(w, Go(t, ch)).sh, t, g, ch.now)
  {
    hide Reached, Inv, Step, Do, Local, LastSeen;
    Always(w);
    StepDo(w, Go(t, ch));
    DoVersions(w.sh, Does(w, Go(t, ch)), g);
    match w.Phase(t)
    case Inside(h, _, i) =>
      BodyOf(w, t, ch);
      Savers(w.sh, t, h, i);
    case _ =>
  }
}
