/**
 * Why a last snapshot may be out of date: a run at the end of which a connection is attached to one game, whose lock
 * is free, while the last snapshot it was sent shows another. The other game was closed; its final snapshot was sent
 * after its connections had been detached, and one of them had joined the next game meanwhile.
 */
module ProtocolLate {
  import opened Wrappers
  import opened Timestamps
  import opened Rules
  import opened Store
  import opened Registry
  import opened Snapshots
  import opened Protocol
  import opened ProtocolInvariant
  import opened ProtocolLast
  import opened ProtocolRuns

  const FIRST: GameId := 1

  const SECOND: GameId := 2

  const CONN: ConnId := 0

  /** The lock objects that are used, one after the other. */
  const L0: LockRef := 0

  const L1: LockRef := 1

  const L2: LockRef := 2

  const INACTIVE: Player := Player("ann", 0, KEY, Civil(2020, 1, 1, 0, 0, 0, 0))

  const ROUND: State := State(Active, WaitingForMoves, Pending, Pending, 0, 0, 0)

  const OVER: State := ROUND.(status := Status.Closed)

  const NO_REQUEST: Serving := Serving(0, false)

  /** Bob plays the first game with Ann, who has long been inactive, and hosts the second. */
  function FirstRow(state: State): Game {
    Game(KEY, Some(ANN), Some(BOB), state, NOW)
  }

  const SECOND_ROW: Game := Game(KEY, Some(BOB), None, NewState(), NOW)

  function Games(first: State): map<GameId, Game> {
    map[FIRST := FirstRow(first), SECOND := SECOND_ROW]
  }

  const STORED: Db := Db(map[ANN := INACTIVE, BOB := Player("bob", 0, KEY, NOW)], Games(ROUND))

  /**
   * The first game is in a state, everything else is as it was stored, and Bob's connection has been sent n messages.
   */
  ghost predicate Keeps(sh: Shared, first: State, n: int) {
    && Get(sh.db.players, ANN) == Some(INACTIVE) && BOB in sh.db.players && sh.db.games == Games(first)
    && FIRST in sh.saves && SECOND in sh.saves && sh.stale == {} && sh.PlayerOn(CONN) == Some(BOB)
    && Roomy(sh, CONN) && |sh.Log(CONN)| == n
  }

  /** Bob's connection is in no game, and nobody is in any. */
  predicate Unattached(sh: Shared) {
    sh.Place(CONN) == Nowhere && sh.reg.games == map[]
  }

  /** Bob's connection is the only one in a game. */
  predicate Alone(sh: Shared, g: GameId) {
    sh.Place(CONN).In(g) && sh.reg.games == map[g := {CONN}]
  }

  // ----- Bob connects -----

  /** Both goroutines are idle. */
  function Base(): World {
    With(Initial(Stored(STORED)), CONN)
  }

  /** Bob has authenticated. */
  function Present(): Shared {
    Bound(Base().sh, CONN, BOB, 0)
  }

  lemma PresentShape()
    ensures Roomy(Base().sh, CONN) && Base().sh.PlayerOn(CONN).None? && Knows(Base().sh, BOB)
    ensures Get(Base().sh.reg.players, BOB) == None
    ensures Keeps(Present(), ROUND, 1) && Unattached(Present())
  {
  }

  lemma BaseReached()
    ensures Reached(Base()) && Base().threads == map[Sweeper := IDLE, Reader(CONN) := IDLE]
    ensures Base().locks == map[] && Base().objs == map[]
  {
    hide Reached;
    assert STORED.ForeignKeys();
    StartReached(STORED);
    Arrives(Initial(Stored(STORED)), CONN);
  }

  lemma Arriving()
    ensures Outside(Base(), Reader(CONN), Present(), Idle, Serving(0, true))
  {
    hide Reached, Base, Roomy, Knows, Outside, Keeps, Bound;
    BaseReached();
    PresentShape();
    OutsideItself(Base(), Reader(CONN), Idle, Serving(0, false));
    Authenticates(Base(), Base().sh, CONN, BOB, Serving(0, false), 0);
  }

  /** Bob has connected to game g. */
  function Connected(sh: Shared, g: GameId, row: Game, seat: Seat): Shared {
    Joined(sh.Asked(CONN, g), CONN, BOB, g, row, seat, g, [])
  }

  lemma AskedShape(sh: Shared, first: State, n: int, g: GameId)
    requires Keeps(sh, first, n) && Unattached(sh)
    ensures
      var asked := sh.Asked(CONN, g);
      && Keeps(asked, first, n) && Unattached(asked) && asked.db == sh.db && asked.saves == sh.saves
      && Lists([], asked.reg.Attached(g) - {CONN})
  {
  }

  lemma JoinedShape(sh: Shared, first: State, n: int, g: GameId, row: Game, seat: Seat)
    requires Keeps(sh, first, n) && n < 10 && Unattached(sh)
    requires Get(sh.db.games, g) == Some(row) && row.lastActive == NOW && g in sh.saves
    ensures
      var sh' := Joined(sh, CONN, BOB, g, row, seat, g, []);
      Keeps(sh', first, n + 1) && Alone(sh', g)
  {
    hide ViewOf;
    assert row.(lastActive := NOW) == row;
    assert sh.db.games[g := row] == sh.db.games;
    assert sh.reg.Attached(g) + {CONN} == {CONN};
  }

  /** Bob connects to game g, while the sweeper may be about to tell the connection something. */
  lemma Connecting(w: World, sh: Shared, first: State, n: int, g: GameId, row: Game, seat: Seat, l: LockRef,
      sv: Serving)
    requires Outside(w, Reader(CONN), sh, Idle, sv) && Keeps(sh, first, n) && n < 10 && Unattached(sh)
    requires Playable(sh, g, BOB, row, seat) && row.lastActive == NOW && g !in w.locks && l !in w.objs
    ensures Outside(Used(w, l), Reader(CONN), Connected(sh, g, row, seat), Idle, Serving(g, true))
    ensures Keeps(Connected(sh, g, row, seat), first, n + 1) && Alone(Connected(sh, g, row, seat), g)
  {
    hide Outside, Joined, Roomy, Used, Lists, Shared.Asked;
    var asked := sh.Asked(CONN, g);
    AskedShape(sh, first, n, g);
    JoinedShape(asked, first, n, g, row, seat);
    ConnectsToLock(w, sh, CONN, BOB, g, row, seat, sv, g);
    ConnectsFromLock(w, asked, CONN, BOB, g, row, seat, l, g, []);
  }

  lemma MayPlay(sh: Shared, first: State, n: int)
    requires Keeps(sh, first, n)
    ensures first.status != Status.Closed ==> Playable(sh, FIRST, BOB, FirstRow(first), Guest)
    ensures Playable(sh, SECOND, BOB, SECOND_ROW, Host)
  {
    hide Roomy;
  }

  // ----- Ann expires -----

  const LISTING: Choice := CHOICE.(games := [FIRST])

  const TELLING: Choice := CHOICE.(conns := [CONN])

  lemma OpenGames(sh: Shared, n: int)
    requires Keeps(sh, ROUND, n)
    ensures Lists([FIRST], OpenGamesOf(sh.db, ANN))
  {
    hide Roomy, Shared.PlayerOn;
    assert sh.db.games[FIRST] == FirstRow(ROUND) && sh.db.games[SECOND] == SECOND_ROW;
    assert FIRST in OpenGamesOf(sh.db, ANN) && SECOND !in OpenGamesOf(sh.db, ANN);
  }

  lemma ListingGoes(sh: Shared, n: int)
    requires Keeps(sh, ROUND, n)
    ensures
      var t, sv, mark := Sweeper, NO_REQUEST, sh.Seatings(ANN);
      && Goes(sh, t, sv, Idle, LISTING, sh, ExpLoad(ANN, NOW), sv)
      && Goes(sh, t, sv, ExpLoad(ANN, NOW), LISTING, sh, ExpList(ANN), sv)
      && Goes(sh, t, sv, ExpList(ANN), LISTING, sh, ExpNext(ANN, [FIRST], mark), sv)
      && Goes(sh, t, sv, ExpNext(ANN, [FIRST], mark), LISTING, sh, Lock(FIRST, ExpReload(ANN, [], mark)), sv)
  {
    OpenGames(sh, n);
    assert Before(INACTIVE.lastActive, NOW);
    assert [FIRST][1..] == [];
    hide Lists, OpenGamesOf, Before, Roomy;
  }

  /** The sweeper takes the lock of the first game. */
  lemma Listing(w: World, sh: Shared, n: int)
    requires Outside(w, Sweeper, sh, Idle, NO_REQUEST) && Keeps(sh, ROUND, n) && FIRST !in w.locks && L1 !in w.objs
    ensures Holds(w, Sweeper, FIRST, L1, sh, ExpReload(ANN, [], sh.Seatings(ANN)), NO_REQUEST)
  {
    hide *;
    var t, sv, mark := Sweeper, NO_REQUEST, sh.Seatings(ANN);
    ListingGoes(sh, n);
    GoOut(w, t, sh, sv, Idle, LISTING, sh, ExpLoad(ANN, NOW), sv);
    GoOut(w, t, sh, sv, ExpLoad(ANN, NOW), LISTING, sh, ExpList(ANN), sv);
    GoOut(w, t, sh, sv, ExpList(ANN), LISTING, sh, ExpNext(ANN, [FIRST], mark), sv);
    GoOut(w, t, sh, sv, ExpNext(ANN, [FIRST], mark), LISTING, sh, Lock(FIRST, ExpReload(ANN, [], mark)), sv);
    TakeLock(w, t, FIRST, L1, sh, ExpReload(ANN, [], mark), sv);
  }

  function Onwards(sh: Shared): OutPc {
    ExpNext(ANN, [], sh.Seatings(ANN))
  }

  /** The shared state once the first game has been closed. */
  function Over(sh: Shared): Shared {
    sh.(db := sh.db.(games := sh.db.games[FIRST := FirstRow(OVER)])).Committed(FIRST, Changed(Leave), OVER)
  }

  /** The shared state once everybody has been detached from it. */
  function Emptied(sh: Shared): Shared {
    Over(sh).(reg := DetachSet(sh.reg, FIRST, sh.reg.Attached(FIRST)))
  }

  function Detaching(sh: Shared): InPc {
    ExpDetach(ANN, [], sh.Seatings(ANN), Host, FirstRow(OVER), Over(sh).Version(FIRST))
  }

  function Viewing(sh: Shared): InPc {
    CloseView(PlayerExpired, Host, FirstRow(OVER), Over(sh).Version(FIRST), Onwards(sh))
  }

  function Closing(sh: Shared): InPc {
    CloseList(PlayerExpired, Host, FirstRow(OVER), Over(sh).Version(FIRST),
        Some(Over(sh).View(FIRST, FirstRow(OVER))), Onwards(sh))
  }

  /** What the sweeper has to tell Bob's connection. */
  function News(sh: Shared): seq<Msg> {
    [GameOver(PlayerExpired, Host),
     StateIs(Snap(FIRST, Over(sh).Version(FIRST), Over(sh).View(FIRST, FirstRow(OVER)), Host))]
  }

  function Telling(sh: Shared): InPc {
    SendAll([CONN], News(sh), Over(sh).SeatsIn(FIRST), ThenLeave(Onwards(sh)))
  }

  lemma SavingGoes(sh: Shared, n: int)
    requires Keeps(sh, ROUND, n)
    ensures
      var t, sv, mark := Sweeper, NO_REQUEST, sh.Seatings(ANN);
      var saving := ExpSave(ANN, [], mark, FirstRow(OVER), Host);
      && GoesIn(sh, t, FIRST, sv, ExpReload(ANN, [], mark), TELLING, sh, saving, sv)
      && GoesIn(sh, t, FIRST, sv, saving, TELLING, Over(sh), Detaching(sh), sv)
  {
    assert Get(sh.db.games, FIRST) == Some(FirstRow(ROUND)) && ANN in sh.db.players && BOB in sh.db.players;
    hide Keeps;
  }

  /** The first detaching, of Ann's connections, finds none. */
  lemma NoneDetached(sh: Shared, n: int)
    requires Keeps(sh, ROUND, n) && Alone(sh, FIRST)
    ensures (set d | d in sh.reg.Attached(FIRST) && sh.PlayerOn(d) == Some(ANN)) == {}
    ensures DetachSet(sh.reg, FIRST, {}) == sh.reg
  {
    hide Roomy;
    assert sh.reg.Attached(FIRST) - {} == {CONN};
  }

  lemma DetachingGoes(sh: Shared, n: int)
    requires Keeps(sh, ROUND, n) && Alone(sh, FIRST)
    ensures
      var t, sv, over := Sweeper, NO_REQUEST, Over(sh);
      && GoesIn(over, t, FIRST, sv, Detaching(sh), TELLING, over, Viewing(sh), sv)
      && GoesIn(over, t, FIRST, sv, Viewing(sh), TELLING, over, Closing(sh), sv)
  {
    hide Keeps, Shared.View, DetachSet;
    NoneDetached(sh, n);
    var over := Over(sh);
    assert over.reg == sh.reg;
    assert (set d | d in over.reg.Attached(FIRST) && over.PlayerOn(d) == Some(ANN)) == {};
  }

  lemma ClosingGoes(sh: Shared)
    requires Alone(sh, FIRST)
    ensures GoesIn(Over(sh), Sweeper, FIRST, NO_REQUEST, Closing(sh), TELLING, Emptied(sh), Telling(sh), NO_REQUEST)
  {
    hide Shared.View, DetachSet, Shared.SeatsIn;
    var over := Over(sh);
    assert over.reg == sh.reg && over.reg.Attached(FIRST) == {CONN};
    assert [GameOver(PlayerExpired, Host)] + Final(FIRST, over.Version(FIRST), Some(over.View(FIRST, FirstRow(OVER))))
      == News(sh);
  }

  lemma EmptiedShape(sh: Shared, n: int)
    requires Keeps(sh, ROUND, n) && Alone(sh, FIRST)
    ensures Keeps(Emptied(sh), OVER, n) && Unattached(Emptied(sh))
  {
    assert sh.db.games[FIRST := FirstRow(OVER)] == Games(OVER);
  }

  /** Ann expires, and the sweeper is about to tell Bob's connection. */
  lemma Expiring(w: World, sh: Shared, n: int)
    requires Outside(w, Sweeper, sh, Idle, NO_REQUEST) && FIRST !in w.locks && L1 !in w.objs
    requires Keeps(sh, ROUND, n) && Alone(sh, FIRST)
    ensures Holds(w, Sweeper, FIRST, L1, Emptied(sh), Telling(sh), NO_REQUEST)
  {
    hide *;
    var t, sv, mark := Sweeper, NO_REQUEST, sh.Seatings(ANN);
    var saving := ExpSave(ANN, [], mark, FirstRow(OVER), Host);
    Listing(w, sh, n);
    SavingGoes(sh, n);
    DetachingGoes(sh, n);
    ClosingGoes(sh);
    GoIn(w, t, FIRST, L1, sh, sv, ExpReload(ANN, [], mark), TELLING, sh, saving, sv);
    GoIn(w, t, FIRST, L1, sh, sv, saving, TELLING, Over(sh), Detaching(sh), sv);
    GoIn(w, t, FIRST, L1, Over(sh), sv, Detaching(sh), TELLING, Over(sh), Viewing(sh), sv);
    GoIn(w, t, FIRST, L1, Over(sh), sv, Viewing(sh), TELLING, Over(sh), Closing(sh), sv);
    GoIn(w, t, FIRST, L1, Over(sh), sv, Closing(sh), TELLING, Emptied(sh), Telling(sh), sv);
  }

  // ----- The run -----

  /**
   * Nothing has failed, Bob's connection is attached to the second game and not closing, and the last thing it was
   * sent is a snapshot of the first game that does not show the state of the second.
   */
  ghost predicate Late(sh: Shared) {
    && sh.stale == {} && CONN in sh.reg.Attached(SECOND) && !sh.Closing(CONN)
    && match LastTo(sh, CONN)
       case Some(last) => last.game == FIRST && sh.State(SECOND).Some? && sh.State(SECOND) != Some(last.Shows())
       case None => false
  }

  /** What the last message leaves of a connection that has just joined the second game. */
  lemma ToldLate(sh: Shared, before: Shared)
    requires Keeps(sh, OVER, 3) && Alone(sh, SECOND)
    ensures Late(ToldAll(sh, [CONN], News(before), Over(before).SeatsIn(FIRST)))
  {
    hide Shared.View, Shared.SeatsIn, LastSnap, Over;
    var msgs, seats := News(before), Over(before).SeatsIn(FIRST);
    var sh1 := sh.Sent(CONN, Rendered(msgs[0], seats, CONN));
    var sh2 := sh1.Sent(CONN, Rendered(msgs[1], seats, CONN));
    assert Told(sh2, [CONN][1..], msgs, seats, 0) == sh2;
    assert Told(sh1, [CONN], msgs, seats, 1) == sh2;
    LastAppended(sh1.Log(CONN), Rendered(msgs[1], seats, CONN));
  }

  /** The world in which Bob has connected to the first game. */
  function FirstWorld(): World {
    Put(Used(Base(), L0), Reader(CONN), Connected(Present(), FIRST, FirstRow(ROUND), Guest), Out(Idle),
        Serving(FIRST, true))
  }

  lemma FirstJoined()
    ensures Reached(FirstWorld()) && Keeps(FirstWorld().sh, ROUND, 2) && Alone(FirstWorld().sh, FIRST)
  {
    hide Reached, Base, Present, Keeps, Unattached, Connected, Playable;
    BaseReached();
    PresentShape();
    MayPlay(Present(), ROUND, 1);
    Arriving();
    Connecting(Base(), Present(), ROUND, 1, FIRST, FirstRow(ROUND), Guest, L0, Serving(0, true));
  }

  /** The world in which the sweeper is about to tell Bob that the first game is over. */
  function SecondWorld(): World {
    var w := FirstWorld();
    Put(Locked(w, Sweeper, FIRST, L1), Sweeper, Emptied(w.sh), Inside(FIRST, L1, Telling(w.sh)), NO_REQUEST)
  }

  lemma FirstClosed()
    ensures Reached(SecondWorld()) && Keeps(SecondWorld().sh, OVER, 2) && Unattached(SecondWorld().sh)
  {
    hide Reached, Base, Present, Keeps, Alone, Unattached, Connected, Emptied, Telling;
    FirstJoined();
    BaseReached();
    var w := FirstWorld();
    EmptiedShape(w.sh, 2);
    OutsideItself(w, Sweeper, Idle, NO_REQUEST);
    Expiring(w, w.sh, 2);
  }

  /** The world in which Bob has connected to the second game meanwhile. */
  function ThirdWorld(): World {
    var w := SecondWorld();
    Put(Used(w, L2), Reader(CONN), Connected(w.sh, SECOND, SECOND_ROW, Host), Out(Idle), Serving(SECOND, true))
  }

  lemma SecondJoined()
    ensures Reached(ThirdWorld()) && Keeps(ThirdWorld().sh, OVER, 3) && Alone(ThirdWorld().sh, SECOND)
  {
    hide Reached, Base, Present, Keeps, Alone, Unattached, Connected, Emptied, Telling, Playable;
    BaseReached();
    FirstClosed();
    var w := SecondWorld();
    MayPlay(w.sh, OVER, 2);
    OutsideItself(w, Reader(CONN), Idle, Serving(FIRST, true));
    Connecting(w, w.sh, OVER, 2, SECOND, SECOND_ROW, Host, L2, Serving(FIRST, true));
  }

  /** The world in which the sweeper has told Bob's connection. */
  function LastWorld(): World {
    var before, w := FirstWorld().sh, ThirdWorld();
    Put(Locked(w, Sweeper, FIRST, L1), Sweeper, ToldAll(w.sh, [CONN], News(before), Over(before).SeatsIn(FIRST)),
        Inside(FIRST, L1, LeaveLock(Onwards(before))), NO_REQUEST)
  }

  /**
   * The last snapshot a connection was sent need not show the game it is attached to: a run from two stored games to
   * a world in which the lock of the second is free, nothing has failed, Bob's connection is attached to the second
   * game and not closing, and the last thing it was sent is the final snapshot of the first.
   */
  lemma LastSnapshotMayBeLate()
    ensures Reached(LastWorld()) && LockFree(LastWorld(), SECOND) && Late(LastWorld().sh)
  {
    hide Reached, Base, Present, Keeps, Alone, Connected, Emptied, News, Over, ToldAll, Late;
    BaseReached();
    SecondJoined();
    var before, w := FirstWorld().sh, ThirdWorld();
    HoldsItself(w, Sweeper, FIRST, L1, Telling(before), NO_REQUEST);
    NewsThere(before);
    TellAll(w, Sweeper, FIRST, L1, w.sh, NO_REQUEST, [CONN], News(before), Over(before).SeatsIn(FIRST),
        ThenLeave(Onwards(before)));
    ToldLate(w.sh, before);
  }

  /** Every run to that world goes through a joining of the second game while the first is still to be told about. */
  lemma LateOnlyByJoining(v: World)
    requires Init(v)
    ensures !LeadsBy(v, LastWorld(), (u, e) => !JoinsWhileTold(u, e, CONN))
  {
    hide Init, LeadsBy, LastWorld, JoinsWhileTold, Reached, LockFree, LastTo;
    if LeadsBy(v, LastWorld(), (u, e) => !JoinsWhileTold(u, e, CONN)) {
      LastSnapshotMayBeLate();
      LastSnapshotIsCurrent(v, LastWorld(), SECOND, CONN);
      assert false;
    }
  }

  lemma NewsThere(sh: Shared)
    ensures News(sh) != []
  {
  }
}
