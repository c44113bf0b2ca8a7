/**
 * Open games have the players their status promises, unless a player is seated while it is being expired: the
 * expiry checks the player's inactivity once, lists its games once, and deletes it outside every game lock.
 */
module ProtocolSeats {
  import opened Wrappers
  import opened Timestamps
  import opened Rules
  import opened Store
  import opened Registry
  import opened Protocol
  import opened ProtocolReached
  import opened ProtocolDoes
  import opened ProtocolLocks
  import opened ProtocolInvariant
  import opened ProtocolEffects
  import opened ProtocolStoreEffects
  import opened ProtocolSafety

  /** An open game has a host, has a guest exactly when it is not waiting for one, and the two differ. */
  predicate RowOccupied(row: Game) {
    row.state.status != Status.Closed ==>
      && row.host.Some?
      && (row.guest.Some? <==> row.state.status != WaitingForGuest)
      && row.guest != row.host
  }

  ghost predicate Occupied(db: Db) {
    forall g :: g in db.games ==> RowOccupied(db.games[g])
  }

  // ----- Effects on rows -----

  /** Deleting a player empties a seat that an open game needs exactly if the player sits in an open game. */
  lemma DeletingOccupied(db: Db, p: PlayerId)
    requires Occupied(db) && db.ForeignKeys()
    ensures Occupied(DeletePlayer(db, p)) <==> OpenGamesOf(db, p) == {}
  {
    var db' := DeletePlayer(db, p);
    if OpenGamesOf(db, p) != {} {
      var g :| g in OpenGamesOf(db, p);
      assert !RowOccupied(db'.games[g]);
    } else {
      forall g | g in db'.games ensures RowOccupied(db'.games[g]) {
        assert g !in OpenGamesOf(db, p);
        assert RowOccupied(db.games[g]);
      }
    }
  }

  /** Only joining fills the second seat, and nothing empties it. */
  lemma StatusMoves(s: State, a: Attempt, s': State)
    requires Apply(s, a) == Success(s')
    ensures s.status != Status.Closed
    ensures if a.Join? then s.status == WaitingForGuest && s'.status == Active
            else s'.status == Status.Closed || (s.status != WaitingForGuest && s'.status != WaitingForGuest)
  {
  }

  /** An effect removes a player who sits in an open game. */
  predicate RemovesSeated(sh: Shared, e: Effect) {
    match e
    case Remove(p) => OpenGamesOf(sh.db, p) != {}
    case _ => false
  }

  /** Of all effects only that one leaves an open game without a player it needs. */
  lemma DoOccupied(sh: Shared, who: Option<Tid>, lock: Option<GameId>, e: Effect)
    requires Global(sh) && Allowed(sh, who, lock, e) && Occupied(sh.db)
    ensures Occupied(Do(sh, e).db) <==> !RemovesSeated(sh, e)
  {
    assert sh.db.ForeignKeys();
    hide Global, Occupied, Sendable, MaySit, DeletePlayer, OpenGamesOf, Bind, Forget, Attach, Detach, DetachSet,
        AddConn,
        Send, Close;
    match e
    case Remove(p) => DeletingOccupied(sh.db, p);
    case Save(g, row, actor, now, commit, guest) => SavingOccupied(sh, g, row, actor, now, commit, guest);
    case _ => OtherOccupied(sh, e);
  }

  lemma OtherOccupied(sh: Shared, e: Effect)
    requires !e.Remove? && !e.Save? && Occupied(sh.db)
    ensures Occupied(Do(sh, e).db)
  {
    hide Bind, Forget, Attach, Detach, DetachSet, AddConn, Send, Close;
  }

  /** A row that the store accepts from a goroutine is as occupied as the one it replaces. */
  lemma SavingOccupied(sh: Shared, g: GameId, row: Game, actor: Option<PlayerId>, now: Time, commit: Commit,
                       guest: Option<PlayerId>)
    requires SaveOk(sh, g, row, commit, guest) && Occupied(sh.db)
    ensures Occupied(Do(sh, Save(g, row, actor, now, commit, guest)).db)
  {
    hide Apply;
    assert RowOccupied(sh.db.games[g]);
    match commit
    case Changed(a) => StatusMoves(sh.db.games[g].state, a, row.state);
    case Reconnected =>
  }

  // ----- Steps and runs -----

  /** The step deletes a player who sits in an open game. */
  predicate DeletesSeated(w: World, e: Event) {
    match e
    case Go(t, ch) =>
      (match w.Phase(t)
       case Out(o) => (match o case ExpDelete(p, _) => !ch.fail && OpenGamesOf(w.sh.db, p) != {} case _ => false)
       case _ => false)
    case _ => false
  }

  lemma DeletesRemoves(w: World, e: Event)
    ensures RemovesSeated(w.sh, Does(w, e)) <==> DeletesSeated(w, e)
  {
    hide OpenGamesOf;
  }

  /** A step of a reachable world keeps open games occupied exactly if it does not delete a seated player. */
  lemma StepOccupied(w: World, e: Event)
    requires Reached(w) && Enabled(w, e) && Occupied(w.sh.db)
    ensures Occupied(Step(w, e).sh.db) <==> !DeletesSeated(w, e)
  {
    hide *;
    Always(w);
    InvStepOccupied(w, e);
  }

  lemma InvStepOccupied(w: World, e: Event)
    requires Inv(w) && Enabled(w, e) && Occupied(w.sh.db)
    ensures Occupied(Step(w, e).sh.db) <==> !DeletesSeated(w, e)
  {
    hide *;
    StepDo(w, e);
    StepAllowed(w, e);
    DeletesRemoves(w, e);
    DoOccupied(w.sh, Mover(e), Holding(w, e), Does(w, e));
  }

  /** The step does not delete a player who has been seated since its games were listed. */
  predicate Undisturbed(w: World, e: Event) {
    match e
    case Go(t, ch) =>
      (match w.Phase(t)
       case Out(o) => (match o case ExpDelete(p, mark) => ch.fail || w.sh.Seatings(p) == mark case _ => true)
       case _ => true)
    case _ => true
  }

  /** Whoever has not been seated since has no open game left. */
  lemma UndisturbedDeletesNoSeated(w: World, e: Event)
    requires Justified(w) && Enabled(w, e) && Undisturbed(w, e)
    ensures !DeletesSeated(w, e)
  {
    hide Justified, InOk, StartOk, DetachOk, ListsGames, ListsConns, Lists;
    match e
    case Go(t, ch) =>
      PhaseOf(w, t);
      match w.Phase(t) {
        case Out(o) =>
          if o.ExpDelete? && !ch.fail {
            NoOpenGames(w.sh, o.player, o.mark);
          }
        case _ =>
      }
    case _ =>
  }

  lemma NoOpenGames(sh: Shared, p: PlayerId, mark: int)
    requires Covers(sh, p, [], mark) && sh.Seatings(p) == mark
    ensures OpenGamesOf(sh.db, p) == {}
  {
    forall g ensures g !in OpenGamesOf(sh.db, p) {
      assert g !in [];
    }
  }

  /**
   * Wherever the server gets from occupied games without deleting a player who has been seated since the expiry
   * listed its games, open games are occupied.
   */
  lemma SeatsStayOccupied(v: World, w: World)
    requires Init(v) && Occupied(v.sh.db) && LeadsBy(v, w, Undisturbed)
    ensures Occupied(w.sh.db)
  {
    hide Init, LeadsBy, Inv, Occupied, Enabled, Step, Undisturbed;
    InitInv(v);
    forall u, e | Inv(u) && OccupiedWorld(u) && Enabled(u, e) && Undisturbed(u, e) ensures OccupiedWorld(Step(u, e)) {
      StepUndisturbed(u, e);
    }
    KeptBy(v, w, Undisturbed, OccupiedWorld);
  }

  ghost predicate OccupiedWorld(w: World) {
    Occupied(w.sh.db)
  }

  lemma StepUndisturbed(w: World, e: Event)
    requires Inv(w) && Occupied(w.sh.db) && Enabled(w, e) && Undisturbed(w, e)
    ensures Occupied(Step(w, e).sh.db)
  {
    hide LockInv, Global, Justified, Occupied, Enabled, Step, Undisturbed, DeletesSeated;
    UndisturbedDeletesNoSeated(w, e);
    InvStepOccupied(w, e);
  }

  /** How reloading the game under the lock may go for a connection, if joining does not fail. */
  predicate Reloaded(i: InPc) {
    match i
    case ConnSave(_, _, _, _) => true
    case LeaveLock(o) =>
      o in {SendErr(Internal), SendErr(InvalidGameCredentials), SendErr(GameFull), SendErr(Broken(GameClosed))}
    case _ => false
  }

  lemma ReloadNeverFailsToJoin(sh: Shared, t: Tid, g: GameId, sv: Serving, p: PlayerId, digest: Digest, ch: Choice)
    requires Occupied(sh.db)
    ensures Reloaded(Body(sh, t, g, sv, ConnReload(p, digest), ch).pc)
  {
    if g in sh.db.games {
      assert RowOccupied(sh.db.games[g]);
    }
  }

  /**
   * Under the same condition, a connection that reloads its game under the lock goes on to save it, or is refused
   * because the store fails or for a wrong, full or closed game: joining never fails.
   */
  lemma ConnectNeverFailsToJoin(v: World, w: World, t: Tid, ch: Choice, g: GameId, p: PlayerId, digest: Digest)
    requires Init(v) && Occupied(v.sh.db) && LeadsBy(v, w, Undisturbed) && Enabled(w, Go(t, ch))
    requires IsInside(w, t, g) && w.Phase(t).Doing() == ConnReload(p, digest)
    ensures IsInside(Step(w, Go(t, ch)), t, g) && Reloaded(Step(w, Go(t, ch)).Phase(t).Doing())
  {
    hide Init, LeadsBy, Occupied, Body, ListsConns, Reloaded;
    SeatsStayOccupied(v, w);
    ReloadNeverFailsToJoin(w.sh, t, g, w.Served(t), p, digest, ch);
  }

  // ----- The race -----

  /** The sweeper alone. */
  function Alone(sh: Shared, o: OutPc): World {
    World(sh, map[], map[], map[Sweeper := Thread(Out(o), Serving(0, false))])
  }

  const LONG_AGO: Time := Civil(2020, 1, 1, 0, 0, 0, 0)
  const CUTOFF: Time := Civil(2025, 1, 1, 0, 0, 0, 0)
  const NOW: Time := Civil(2026, 1, 1, 0, 0, 0, 0)

  const ANN: PlayerId := 1
  const TABLE: GameId := 5
  const KEY: Digest := 9

  const SWEEPING: Choice := Choice(false, NOW, [], [], 0, SocketGone, ExpirePlayer(ANN, CUTOFF))

  /** The sweeper's next step outside locks, in a world of its own. */
  lemma SweeperGoes(v: World, sh: Shared, o: OutPc, sh': Shared, o': OutPc)
    requires Leads(v, Alone(sh, o))
        && Free(sh, Sweeper, Serving(0, false), o, SWEEPING) == To(sh', o', Serving(0, false))
    requires !o.Lock? && !o.Done? && ListsGames(sh, o, SWEEPING)
    ensures Leads(v, Alone(sh', o')) && Enabled(Alone(sh, o), Go(Sweeper, SWEEPING))
    ensures Step(Alone(sh, o), Go(Sweeper, SWEEPING)) == Alone(sh', o')
  {
    hide LeadsBy, Free, Body, ListsGames;
    var w := Alone(sh, o);
    assert w.threads[Sweeper := Thread(Out(o'), Serving(0, false))] == Alone(sh', o').threads;
    NextLeads(v, w, Go(Sweeper, SWEEPING), Any);
  }

  const INACTIVE: Shared :=
    Shared(Db(map[ANN := Player("ann", 0, 7, LONG_AGO)], map[]), Reg({}, map[], map[], map[]), map[], {ANN}, map[], {},
        map[])

  const CREATES: Event := NewGame(TABLE, ANN, KEY, NOW)

  /** The store once she has created a game. */
  const BEGUN: Shared := Do(INACTIVE, Found(TABLE, ANN, KEY, NOW))

  /** The sweeper has found the player inactive, and listed no game. */
  lemma RaceBegins(v: World)
    requires v == Alone(INACTIVE, Idle)
    ensures Init(v) && Occupied(v.sh.db) && Leads(v, Alone(INACTIVE, ExpNext(ANN, [], 0)))
  {
    hide LeadsBy, Free;
    NowhereLeads(v, Any);
    assert OpenGamesOf(INACTIVE.db, ANN) == {};
    ListingMoves(INACTIVE);
    SweeperGoes(v, INACTIVE, Idle, INACTIVE, ExpLoad(ANN, CUTOFF));
    SweeperGoes(v, INACTIVE, ExpLoad(ANN, CUTOFF), INACTIVE, ExpList(ANN));
    SweeperGoes(v, INACTIVE, ExpList(ANN), INACTIVE, ExpNext(ANN, [], 0));
  }

  lemma ListingMoves(sh: Shared)
    requires Get(sh.db.players, ANN) == Some(Player("ann", 0, 7, LONG_AGO)) && sh.Seatings(ANN) == 0
    ensures
      var sv := Serving(0, false);
      && Free(sh, Sweeper, sv, Idle, SWEEPING) == To(sh, ExpLoad(ANN, CUTOFF), sv)
      && Free(sh, Sweeper, sv, ExpLoad(ANN, CUTOFF), SWEEPING) == To(sh, ExpList(ANN), sv)
      && Free(sh, Sweeper, sv, ExpList(ANN), SWEEPING) == To(sh, ExpNext(ANN, [], 0), sv)
  {
  }

  /** The player creates a game. */
  lemma RaceGoesOn(v: World)
    requires Leads(v, Alone(INACTIVE, ExpNext(ANN, [], 0)))
    ensures Leads(v, Alone(BEGUN, ExpNext(ANN, [], 0)))
  {
    hide LeadsBy, RunThread, CanRun;
    NextLeads(v, Alone(INACTIVE, ExpNext(ANN, [], 0)), CREATES, Any);
    assert Step(Alone(INACTIVE, ExpNext(ANN, [], 0)), CREATES) == Alone(BEGUN, ExpNext(ANN, [], 0));
  }

  lemma RaceResult()
    ensures ANN !in BEGUN.reg.players && Get(BEGUN.db.players, ANN) == Some(Player("ann", 0, 7, NOW))
    ensures !Before(NOW, CUTOFF)
    ensures ANN !in DeletePlayer(BEGUN.db, ANN).players && !Occupied(DeletePlayer(BEGUN.db, ANN))
  {
    assert !RowOccupied(DeletePlayer(BEGUN.db, ANN).games[TABLE]);
  }

  /**
   * The condition is needed: a player who creates a game while being expired is deleted although it has just been
   * active, and leaves an open game without a host.
   */
  lemma ExpiryRaces() returns (v: World, w: World, e: Event)
    ensures Init(v) && Occupied(v.sh.db) && Leads(v, w) && Enabled(w, e)
    ensures match Get(w.sh.db.players, ANN) case Some(row) => !Before(row.lastActive, CUTOFF) case None => false
    ensures ANN !in Step(w, e).sh.db.players && !Occupied(Step(w, e).sh.db)
  {
    hide Init, Leads, Enabled, Step, Occupied, Before, DeletePlayer, INACTIVE, BEGUN, Bind, Forget;
    v, w, e := Alone(INACTIVE, Idle), Alone(BEGUN, ExpDelete(ANN, 0)), Go(Sweeper, SWEEPING);
    RaceBegins(v);
    RaceGoesOn(v);
    RaceResult();
    SweeperGoes(v, BEGUN, ExpNext(ANN, [], 0), BEGUN, ExpConn(ANN, 0));
    SweeperGoes(v, BEGUN, ExpConn(ANN, 0), BEGUN, ExpDelete(ANN, 0));
    SweeperGoes(v, BEGUN, ExpDelete(ANN, 0), BEGUN.(db := DeletePlayer(BEGUN.db, ANN)), Idle);
  }
}
