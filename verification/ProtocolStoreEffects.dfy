/** Changes to the store keep what always holds, and stay within what the others rely on. */
module ProtocolStoreEffects {
  import opened Wrappers
  import opened Timestamps
  import opened Rules
  import opened Store
  import opened Registry
  import opened Protocol
  import opened ProtocolDoes
  import opened ProtocolInvariant
  import opened ProtocolRely
  import opened ProtocolEffects

  /** Every log stays genuine when histories grow. */
  lemma LogsGrow(sh: Shared, sh': Shared)
    requires LogsOk(sh) && sh'.chan == sh.chan
    requires forall g :: g in sh.saves ==>
               g in sh'.saves && sh.saves[g].states <= sh'.saves[g].states
    ensures LogsOk(sh')
  {
    forall c, i | c in sh.chan && 0 <= i < |sh.chan[c].log| && SnapOf(sh.chan[c].log[i]).Some?
      ensures Genuine(sh', SnapOf(sh.chan[c].log[i]).value)
    {
      var snap := SnapOf(sh.chan[c].log[i]).value;
      assert Genuine(sh, snap);
    }
  }

  /** Whether a copy of game g may be saved as the given commit; a new guest is recorded as seated. */
  ghost predicate SaveOk(sh: Shared, g: GameId, copy: Game, commit: Commit, guest: Option<PlayerId>) {
    && Live(sh, g)
    && (match commit
        case Reconnected => copy.state == sh.db.games[g].state
        case Changed(a) => Apply(sh.db.games[g].state, a) == Success(copy.state))
    && SeatCopied(sh, sh.db.games[g].host, copy.host)
    && (guest.Some? <==> commit == Changed(Join))
    && (if guest.Some? then sh.db.games[g].guest.None? && copy.guest == guest && copy.host != guest
        else SeatCopied(sh, sh.db.games[g].guest, copy.guest))
  }

  /** What a successful save does, in terms of rows. */
  ghost predicate SaveDone(sh: Shared, sh': Shared, g: GameId, copy: Game, commit: Commit) {
    && g in sh.saves && g in sh.db.games
    && sh'.saves == sh.saves[g := History(sh.saves[g].commits + [commit], sh.saves[g].states + [copy.state])]
    && sh'.db.players.Keys == sh.db.players.Keys
    && sh'.db.games == sh.db.games[g := copy.(digest := sh.db.games[g].digest)]
    && sh'.db.Refers(copy.host) && sh'.db.Refers(copy.guest)
    && sh'.reg == sh.reg && sh'.chan == sh.chan && sh'.stale == sh.stale && sh'.used == sh.used
  }

  lemma SaveShape(sh: Shared, g: GameId, copy: Game, actor: Option<PlayerId>, now: Time, commit: Commit,
                  guest: Option<PlayerId>)
    requires g in sh.db.games && g in sh.saves && SaveGame(sh.db, g, copy, actor, now).Success?
    ensures SaveDone(sh, Do(sh, Save(g, copy, actor, now, commit, guest)), g, copy, commit)
    ensures forall p: PlayerId ::
      Do(sh, Save(g, copy, actor, now, commit, guest)).Seatings(p) == sh.Seatings(p) + (if guest == Some(p) then 1
          else 0)
  {
  }

  lemma SaveRows(sh: Shared, sh': Shared, g: GameId, copy: Game, commit: Commit, guest: Option<PlayerId>)
    requires SaveDone(sh, sh', g, copy, commit) && SaveOk(sh, g, copy, commit, guest)
    requires forall p: PlayerId :: sh'.Seatings(p) == sh.Seatings(p) + (if guest == Some(p) then 1 else 0)
    ensures PlayersKept(sh, sh') && RowsKept(sh, sh', Some(g))
  {
    forall p, h | h in sh'.db.games && Seated(sh'.db.games[h], p) && sh'.Seatings(p) == sh.Seatings(p)
      ensures h in sh.db.games && Seated(sh.db.games[h], p)
    {
    }
  }

  lemma SaveDb(sh: Shared, sh': Shared, g: GameId, copy: Game, commit: Commit, guest: Option<PlayerId>)
    requires SaveDone(sh, sh', g, copy, commit) && SaveOk(sh, g, copy, commit, guest)
    requires DbOk(sh) && SeatsHeld(sh)
    ensures DbOk(sh') && SeatsHeld(sh')
  {
  }

  lemma SaveFaithful(sh: Shared, sh': Shared, g: GameId, copy: Game, commit: Commit, guest: Option<PlayerId>)
    requires SaveDone(sh, sh', g, copy, commit) && SaveOk(sh, g, copy, commit, guest)
    requires DbOk(sh) && HistoriesOk(sh)
    ensures HistoriesOk(sh')
  {
  }

  /** A save keeps what always holds, and only changes the locked game. */
  lemma SaveKeeps(sh: Shared, g: GameId, copy: Game, actor: Option<PlayerId>, now: Time, commit: Commit,
                  guest: Option<PlayerId>, who: Option<Tid>)
    requires Global(sh) && SaveOk(sh, g, copy, commit, guest) && SaveGame(sh.db, g, copy, actor, now).Success?
    ensures
      var sh' := Do(sh, Save(g, copy, actor, now, commit, guest));
      && Global(sh') && Rely(sh, sh', who, Some(g)) && SaveDone(sh, sh', g, copy, commit)
  {
    var sh' := Do(sh, Save(g, copy, actor, now, commit, guest));
    assert g in sh.saves && g in sh.db.games;
    hide RegOk, DbOk, SeatsHeld, LogsOk, HistoriesOk, PlayersKept, RowsKept, RegKept, ChansKept, StaleKept;
    hide SaveOk, Do, AfterCommit, SaveGame;
    SaveShape(sh, g, copy, actor, now, commit, guest);
    StaleSame(sh, sh', Some(g));
    SaveRows(sh, sh', g, copy, commit, guest);
    SaveDb(sh, sh', g, copy, commit, guest);
    SaveFaithful(sh, sh', g, copy, commit, guest);
    RegSame(sh, sh', who, Some(g));
    ChansSame(sh, sh', Some(g));
    LogsGrow(sh, sh');
  }

  lemma HistoriesSame(sh: Shared, sh': Shared)
    requires sh'.saves == sh.saves
    ensures HistoriesOk(sh) ==> HistoriesOk(sh')
  {
  }

  /** A change to the stored rows alone. */
  lemma DbKeeps(sh: Shared, db: Db, who: Option<Tid>, lock: Option<GameId>)
    requires Global(sh)
    requires PlayersKept(sh, sh.(db := db)) && RowsKept(sh, sh.(db := db), lock)
    requires DbOk(sh.(db := db)) && SeatsHeld(sh.(db := db))
    ensures Global(sh.(db := db)) && Rely(sh, sh.(db := db), who, lock)
  {
    hide RegOk, DbOk, SeatsHeld, LogsOk, HistoriesOk, PlayersKept, RowsKept, RegKept, ChansKept, StaleKept;
    HistoriesSame(sh, sh.(db := db));
    RegSame(sh, sh.(db := db), who, lock);
    ChansSame(sh, sh.(db := db), lock);
    StaleSame(sh, sh.(db := db), lock);
  }

  lemma TouchKeeps(sh: Shared, p: PlayerId, now: Time, who: Option<Tid>)
    requires Global(sh)
    ensures Global(sh.(db := TouchPlayer(sh.db, p, now)))
    ensures Rely(sh, sh.(db := TouchPlayer(sh.db, p, now)), who, None)
  {
    var db := TouchPlayer(sh.db, p, now);
    assert db.games == sh.db.games && db.players.Keys == sh.db.players.Keys;
    hide RegOk, DbOk, SeatsHeld, LogsOk, HistoriesOk, PlayersKept, RowsKept, RegKept, ChansKept, StaleKept;
    RowsUntouched(sh, db);
    DbKeeps(sh, db, who, None);
  }

  lemma RowsUntouched(sh: Shared, db: Db)
    requires db.games == sh.db.games && db.players.Keys == sh.db.players.Keys
    requires DbOk(sh) && SeatsHeld(sh)
    ensures PlayersKept(sh, sh.(db := db)) && RowsKept(sh, sh.(db := db), None)
    ensures DbOk(sh.(db := db)) && SeatsHeld(sh.(db := db))
  {
  }

  lemma DeletePlayerKeeps(sh: Shared, p: PlayerId, who: Option<Tid>)
    requires Global(sh)
    ensures Global(sh.(db := DeletePlayer(sh.db, p)))
    ensures Rely(sh, sh.(db := DeletePlayer(sh.db, p)), who, None)
  {
    hide RegOk, DbOk, SeatsHeld, LogsOk, HistoriesOk, PlayersKept, RowsKept, RegKept, ChansKept, StaleKept;
    DeletePlayerRows(sh, p);
    DbKeeps(sh, DeletePlayer(sh.db, p), who, None);
  }

  lemma DeletePlayerRows(sh: Shared, p: PlayerId)
    requires DbOk(sh) && SeatsHeld(sh)
    ensures PlayersKept(sh, sh.(db := DeletePlayer(sh.db, p)))
    ensures RowsKept(sh, sh.(db := DeletePlayer(sh.db, p)), None)
    ensures DbOk(sh.(db := DeletePlayer(sh.db, p)))
    ensures SeatsHeld(sh.(db := DeletePlayer(sh.db, p)))
  {
    if p in sh.db.players {
      DeletedRows(sh, p);
      DeletedDb(sh, p);
      DeletedSeats(sh, p);
    } else {
      RowsUntouched(sh, sh.db);
    }
  }

  lemma DeletedRows(sh: Shared, p: PlayerId)
    requires p in sh.db.players
    ensures PlayersKept(sh, sh.(db := DeletePlayer(sh.db, p)))
    ensures RowsKept(sh, sh.(db := DeletePlayer(sh.db, p)), None)
  {
  }

  lemma DeletedDb(sh: Shared, p: PlayerId)
    requires p in sh.db.players && DbOk(sh)
    ensures DbOk(sh.(db := DeletePlayer(sh.db, p)))
  {
  }

  lemma DeletedSeats(sh: Shared, p: PlayerId)
    requires p in sh.db.players && SeatsHeld(sh)
    ensures SeatsHeld(sh.(db := DeletePlayer(sh.db, p)))
  {
  }

  lemma DeleteGameKeeps(sh: Shared, g: GameId, who: Option<Tid>)
    requires Global(sh)
    ensures Global(sh.(db := DeleteGame(sh.db, g)))
    ensures Rely(sh, sh.(db := DeleteGame(sh.db, g)), who, Some(g))
  {
    hide RegOk, DbOk, SeatsHeld, LogsOk, HistoriesOk, PlayersKept, RowsKept, RegKept, ChansKept, StaleKept;
    DeleteGameRows(sh, g);
    DbKeeps(sh, DeleteGame(sh.db, g), who, Some(g));
  }

  lemma DeleteGameRows(sh: Shared, g: GameId)
    requires DbOk(sh) && SeatsHeld(sh)
    ensures
      var sh' := sh.(db := DeleteGame(sh.db, g));
      PlayersKept(sh, sh') && RowsKept(sh, sh', Some(g)) && DbOk(sh') && SeatsHeld(sh')
  {
  }

  lemma StaleKeeps(sh: Shared, g: GameId, stale: set<GameId>, who: Option<Tid>)
    requires Global(sh) && stale - {g} == sh.stale - {g}
    ensures Global(sh.(stale := stale))
    ensures Rely(sh, sh.(stale := stale), who, Some(g))
  {
    var sh' := sh.(stale := stale);
    StaleMoves(sh, g, stale);
    hide RegOk, DbOk, SeatsHeld, LogsOk, HistoriesOk, PlayersKept, RowsKept, RegKept, ChansKept, StaleKept;
    StoreSame(sh, sh', Some(g));
    RegSame(sh, sh', who, Some(g));
    ChansSame(sh, sh', Some(g));
  }

  lemma StaleMoves(sh: Shared, g: GameId, stale: set<GameId>)
    requires stale - {g} == sh.stale - {g}
    ensures StaleKept(sh, sh.(stale := stale), Some(g))
  {
    forall h: GameId | h != g ensures h in stale <==> h in sh.stale {
      assert h in stale - {g} <==> h in sh.stale - {g};
    }
  }

  // ----- The environment -----

  lemma NewPlayerKeeps(sh: Shared, p: PlayerId, row: Player)
    requires Global(sh) && p !in sh.used
    ensures Global(Do(sh, Enlist(p, row)))
    ensures Rely(sh, Do(sh, Enlist(p, row)), None, None)
  {
    var sh' := Do(sh, Enlist(p, row));
    hide RegOk, DbOk, SeatsHeld, LogsOk, HistoriesOk, PlayersKept, RowsKept, RegKept, ChansKept, StaleKept;
    HistoriesSame(sh, sh');
    StaleSame(sh, sh', None);
    RegSame(sh, sh', None, None);
    ChansSame(sh, sh', None);
    NewPlayerRows(sh, p, row);
  }

  lemma NewPlayerRows(sh: Shared, p: PlayerId, row: Player)
    requires DbOk(sh) && SeatsHeld(sh) && RegOk(sh) && p !in sh.used
    ensures var sh' := Do(sh, Enlist(p, row));
      PlayersKept(sh, sh') && RowsKept(sh, sh', None) && DbOk(sh') && SeatsHeld(sh')
  {
  }

  lemma NewGameKeeps(sh: Shared, g: GameId, host: PlayerId, digest: Digest, now: Time)
    requires Global(sh) && g !in sh.saves && host in sh.db.players
    ensures Global(Do(sh, Found(g, host, digest, now)))
    ensures Rely(sh, Do(sh, Found(g, host, digest, now)), None, None)
  {
    var sh' := Do(sh, Found(g, host, digest, now));
    assert g !in sh.db.games;
    hide RegOk, DbOk, SeatsHeld, LogsOk, HistoriesOk, PlayersKept, RowsKept, RegKept, ChansKept, StaleKept;
    StaleSame(sh, sh', None);
    RegSame(sh, sh', None, None);
    ChansSame(sh, sh', None);
    LogsGrow(sh, sh');
    NewGameRows(sh, g, host, digest, now);
    NewGameSeats(sh, g, host, digest, now);
  }

  lemma NewGameRows(sh: Shared, g: GameId, host: PlayerId, digest: Digest, now: Time)
    requires DbOk(sh) && g !in sh.saves && g !in sh.db.games && host in sh.db.players
    ensures var sh' := Do(sh, Found(g, host, digest, now));
      PlayersKept(sh, sh') && RowsKept(sh, sh', None) && DbOk(sh') && (HistoriesOk(sh) ==> HistoriesOk(sh'))
  {
    NewGameShape(sh, g, host, digest, now);
    hide Do, PlayersKept, RowsKept, DbOk, HistoriesOk;
    NewGamePlayers(sh, Do(sh, Found(g, host, digest, now)), g, host, digest, now);
    NewGameGames(sh, Do(sh, Found(g, host, digest, now)), g, host, digest, now);
  }

  /** What the creation of a game does, in terms of rows. */
  ghost predicate GameMade(sh: Shared, sh': Shared, g: GameId, host: PlayerId, digest: Digest, now: Time) {
    && sh'.db.games == sh.db.games[g := Game(digest, Some(host), None, NewState(), now)]
    && sh'.db.players.Keys == sh.db.players.Keys
    && sh'.saves == sh.saves[g := History([], [NewState()])] && sh'.used == sh.used
    && (forall p: PlayerId :: sh'.Seatings(p) == sh.Seatings(p) + (if p == host then 1 else 0))
  }

  lemma NewGameShape(sh: Shared, g: GameId, host: PlayerId, digest: Digest, now: Time)
    requires g !in sh.db.games && host in sh.db.players
    ensures GameMade(sh, Do(sh, Found(g, host, digest, now)), g, host, digest, now)
  {
  }

  lemma NewGamePlayers(sh: Shared, sh': Shared, g: GameId, host: PlayerId, digest: Digest, now: Time)
    requires GameMade(sh, sh', g, host, digest, now) && g !in sh.db.games
    ensures PlayersKept(sh, sh')
  {
    forall p, h | h in sh'.db.games && Seated(sh'.db.games[h], p) && sh'.Seatings(p) == sh.Seatings(p)
      ensures h in sh.db.games && Seated(sh.db.games[h], p)
    {
    }
  }

  lemma NewGameGames(sh: Shared, sh': Shared, g: GameId, host: PlayerId, digest: Digest, now: Time)
    requires GameMade(sh, sh', g, host, digest, now)
    requires DbOk(sh) && g !in sh.saves && g !in sh.db.games && host in sh.db.players
    ensures RowsKept(sh, sh', None) && DbOk(sh') && (HistoriesOk(sh) ==> HistoriesOk(sh'))
  {
  }

  lemma NewGameSeats(sh: Shared, g: GameId, host: PlayerId, digest: Digest, now: Time)
    requires SeatsHeld(sh) && g !in sh.db.games && g !in sh.saves && host in sh.db.players
    ensures SeatsHeld(Do(sh, Found(g, host, digest, now)))
  {
  }

  lemma NewConnKeeps(sh: Shared, c: ConnId)
    requires Global(sh) && c !in sh.chan
    ensures Global(Do(sh, Meet(c)))
    ensures Rely(sh, Do(sh, Meet(c)), None, None)
  {
    var sh' := Do(sh, Meet(c));
    hide RegOk, DbOk, SeatsHeld, LogsOk, HistoriesOk, PlayersKept, RowsKept, RegKept, ChansKept, StaleKept;
    StoreSame(sh, sh', None);
    StaleSame(sh, sh', None);
    NewConnReg(sh, c);
    NewConnChan(sh, c);
  }

  lemma EmptyInOrder()
    ensures InCommitOrder([])
  {
  }

  lemma NewConnChan(sh: Shared, c: ConnId)
    requires LogsOk(sh) && c !in sh.chan
    ensures var sh' := Do(sh, Meet(c)); LogsOk(sh') && ChansKept(sh, sh', None)
  {
    var sh' := Do(sh, Meet(c));
    hide InCommitOrder;
    assert InCommitOrder([]) by { EmptyInOrder(); }
  }

  lemma NewConnReg(sh: Shared, c: ConnId)
    requires RegOk(sh) && SeatsHeld(sh) && c !in sh.chan
    ensures var sh' := Do(sh, Meet(c)); RegOk(sh') && SeatsHeld(sh') && RegKept(sh, sh', None, None)
  {
    AddConnAgrees(sh.reg, c);
  }

  lemma TakeKeeps(sh: Shared, c: ConnId)
    requires Global(sh) && c in sh.chan && sh.chan[c].taken < |sh.chan[c].log|
    ensures Global(Do(sh, Fetch(c)))
    ensures Rely(sh, Do(sh, Fetch(c)), None, None)
  {
    hide Global, Rely;
    SameLogKeeps(sh, c, sh.chan[c].(taken := sh.chan[c].taken + 1), None, None);
  }

  lemma NothingKeeps(sh: Shared, who: Option<Tid>, lock: Option<GameId>)
    requires Global(sh)
    ensures Rely(sh, sh, who, lock)
  {
    hide Global, PlayersKept, RowsKept, RegKept, ChansKept, StaleKept;
    StoreSame(sh, sh, lock);
    RegSame(sh, sh, who, lock);
    ChansSame(sh, sh, lock);
    StaleSame(sh, sh, lock);
  }

  /** What is allowed without a lock, or to nobody in particular, is allowed to all. */
  lemma RelyMore(sh: Shared, sh': Shared, who: Option<Tid>, lock: Option<GameId>)
    requires Rely(sh, sh', who, None) || Rely(sh, sh', None, None)
    ensures Rely(sh, sh', who, lock)
  {
    hide PlayersKept;
  }

  // ----- Every effect -----

  /** What somebody who holds the lock of game `lock`, if any, may do. */
  ghost predicate Allowed(sh: Shared, who: Option<Tid>, lock: Option<GameId>, e: Effect) {
    match e
    case Nothing => true
    case Ask(c, _) => c in sh.chan
    case Say(c, m) => c in sh.chan && Sendable(sh, m, lock)
    case Shut(c, _) => c in sh.chan
    case Touch(_, _) => true
    case Save(g, row, _, _, commit, guest) => lock == Some(g) && SaveOk(sh, g, row, commit, guest)
    case Enter(c, p) => who == Some(Reader(c)) && c in sh.chan && sh.PlayerOn(c).None? && p in sh.used
    case Drop(c) => who == Some(Reader(c)) && c in sh.chan
    case Sit(c, g, seat) => lock == Some(g) && who == Some(Reader(c)) && c in sh.chan && MaySit(sh, c, g, seat)
    case Rise(c) => c in sh.chan && exists g: GameId :: lock == Some(g) && Here(sh, g, c)
    case Clear(g, cs) => lock == Some(g) && cs <= sh.reg.Attached(g)
    case Miss(g) => lock == Some(g)
    case Show(g) => lock == Some(g)
    case Remove(_) => true
    case Discard(g) => lock == Some(g)
    case Meet(c) => c !in sh.chan
    case Enlist(p, _) => p !in sh.used
    case Found(g, host, _, _) => g !in sh.saves && host in sh.db.players
    case Fetch(c) => c in sh.chan && sh.chan[c].taken < |sh.chan[c].log|
  }

  /** Every allowed effect keeps what always holds, and stays within what the others rely on. */
  lemma DoKeeps(sh: Shared, who: Option<Tid>, lock: Option<GameId>, e: Effect)
    requires Global(sh) && Allowed(sh, who, lock, e)
    ensures Global(Do(sh, e)) && Rely(sh, Do(sh, e), who, lock)
  {
    hide Global, Rely, Sendable, SaveOk, MaySit, TouchPlayer, SaveGame, Bind, Forget, Attach, Detach, DetachSet,
        DeletePlayer, DeleteGame, AddConn, CreateGame, Send, Close;
    NothingKeeps(sh, who, lock);
    match e
    case Nothing =>
    case Ask(c, rid) => AskedKeeps(sh, c, rid, who, lock);
    case Say(c, m) => SentKeeps(sh, c, m, who, lock);
    case Shut(c, code) => ClosedKeeps(sh, c, code, who, lock);
    case Touch(p, now) =>
      TouchKeeps(sh, p, now, who);
      RelyMore(sh, Do(sh, e), who, lock);
    case Save(g, row, actor, now, commit, guest) =>
      if SaveGame(sh.db, g, row, actor, now).Success? {
        SaveKeeps(sh, g, row, actor, now, commit, guest, who);
      }
    case Enter(c, p) =>
      BindKeeps(sh, c, p);
      RelyMore(sh, Do(sh, e), who, lock);
    case Drop(c) =>
      ForgetKeeps(sh, c);
      RelyMore(sh, Do(sh, e), who, lock);
    case Sit(c, g, seat) => AttachKeeps(sh, c, g, seat);
    case Rise(c) =>
      var g: GameId :| lock == Some(g) && Here(sh, g, c);
      DetachKeeps(sh, c, g, who);
    case Clear(g, cs) => DetachSetKeeps(sh, g, cs, who);
    case Miss(g) => StaleKeeps(sh, g, sh.stale + {g}, who);
    case Show(g) => StaleKeeps(sh, g, sh.stale - {g}, who);
    case Remove(p) =>
      DeletePlayerKeeps(sh, p, who);
      RelyMore(sh, Do(sh, e), who, lock);
    case Discard(g) => DeleteGameKeeps(sh, g, who);
    case Meet(c) =>
      NewConnKeeps(sh, c);
      RelyMore(sh, Do(sh, e), who, lock);
    case Enlist(p, row) =>
      NewPlayerKeeps(sh, p, row);
      RelyMore(sh, Do(sh, e), who, lock);
    case Found(g, host, digest, now) =>
      NewGameKeeps(sh, g, host, digest, now);
      RelyMore(sh, Do(sh, e), who, lock);
    case Fetch(c) =>
      TakeKeeps(sh, c);
      RelyMore(sh, Do(sh, e), who, lock);
  }
}
