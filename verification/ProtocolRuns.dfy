/** Building runs step by step: each lemma takes a reached world to a next one. */
module ProtocolRuns {
  import opened Wrappers
  import opened Timestamps
  import opened Rules
  import opened Store
  import opened Registry
  import opened Snapshots
  import opened Protocol
  import opened ProtocolReached
  import opened ProtocolDoes

  const IDLE: Thread := Thread(Out(Idle), Serving(0, false))

  /** The server with nobody connected. */
  function Initial(sh: Shared): World {
    World(sh, map[], map[], map[Sweeper := IDLE])
  }

  /** The shared state when the server starts with a store. */
  function Stored(db: Db): Shared {
    Shared(db, Reg({}, map[], map[], map[]), map[], db.players.Keys,
           map g | g in db.games :: History([], [db.games[g].state]), {}, map[])
  }

  lemma StartReached(db: Db)
    requires db.ForeignKeys()
    ensures Reached(Initial(Stored(db)))
  {
    hide Reached;
    InitReached(Initial(Stored(db)));
  }

  /** The world once connection c has come. */
  function With(w: World, c: ConnId): World {
    w.(sh := Do(w.sh, Meet(c)), threads := w.threads[Reader(c) := IDLE])
  }

  lemma Arrives(w: World, c: ConnId)
    requires Reached(w) && c !in w.sh.chan
    ensures Reached(With(w, c))
  {
    hide Reached, RunThread, AddConn;
    NextReached(w, NewConn(c));
  }

  // ----- One goroutine's steps -----

  /** World w, but for the shared state and for where goroutine t is. */
  function Put(w: World, t: Tid, sh: Shared, phase: Phase, sv: Serving): World {
    w.(sh := sh, threads := w.threads[t := Thread(phase, sv)])
  }

  /** World w, but for goroutine t, which is outside every lock. */
  ghost predicate Outside(w: World, t: Tid, sh: Shared, o: OutPc, sv: Serving) {
    Reached(Put(w, t, sh, Out(o), sv))
  }

  /** World w, but that t uses lock object l of game g, which nobody else wants. */
  function Locked(w: World, t: Tid, g: GameId, l: LockRef): World {
    w.(locks := w.locks[g := l], objs := w.objs[l := LockObj(1, Some(t))])
  }

  ghost predicate Holds(w: World, t: Tid, g: GameId, l: LockRef, sh: Shared, i: InPc, sv: Serving) {
    Reached(Put(Locked(w, t, g, l), t, sh, Inside(g, l, i), sv))
  }

  lemma OutsideItself(w: World, t: Tid, o: OutPc, sv: Serving)
    requires Reached(w) && t in w.threads && w.On(t) == Thread(Out(o), sv)
    ensures Outside(w, t, w.sh, o, sv)
  {
    hide Reached;
    assert Put(w, t, w.sh, Out(o), sv) == w;
  }

  lemma HoldsItself(w: World, t: Tid, g: GameId, l: LockRef, i: InPc, sv: Serving)
    requires Reached(w) && t in w.threads && w.On(t) == Thread(Inside(g, l, i), sv)
    requires Get(w.locks, g) == Some(l) && Get(w.objs, l) == Some(LockObj(1, Some(t)))
    ensures Holds(w, t, g, l, w.sh, i, sv)
  {
    hide Reached;
    assert Put(Locked(w, t, g, l), t, w.sh, Inside(g, l, i), sv) == w;
  }

  /** A step outside locks. */
  ghost predicate Goes(sh: Shared, t: Tid, sv: Serving, o: OutPc, ch: Choice, sh': Shared, o': OutPc, sv': Serving) {
    !o.Lock? && !o.Done? && ListsGames(sh, o, ch) && Free(sh, t, sv, o, ch) == To(sh', o', sv')
  }

  lemma GoOut(w: World, t: Tid, sh: Shared, sv: Serving, o: OutPc, ch: Choice, sh': Shared, o': OutPc, sv': Serving)
    requires Outside(w, t, sh, o, sv) && Goes(sh, t, sv, o, ch, sh', o', sv')
    ensures Outside(w, t, sh', o', sv')
  {
    hide Free, Body, Reached, ListsGames, ListsConns, RegisterLock, AcquireLock, ReleaseLock, UnregisterLock;
    NextReached(Put(w, t, sh, Out(o), sv), Go(t, ch));
    assert Step(Put(w, t, sh, Out(o), sv), Go(t, ch)) == Put(w, t, sh', Out(o'), sv');
  }

  /** A step under the lock of game g. */
  ghost predicate GoesIn(sh: Shared, t: Tid, g: GameId, sv: Serving, i: InPc, ch: Choice, sh': Shared, i': InPc,
                         sv': Serving)
  {
    !i.LeaveLock? && ListsConns(sh, t, g, i, ch) && Body(sh, t, g, sv, i, ch) == To(sh', i', sv')
  }

  lemma GoIn(w: World, t: Tid, g: GameId, l: LockRef, sh: Shared, sv: Serving, i: InPc, ch: Choice, sh': Shared,
      i': InPc,
             sv': Serving)
    requires Holds(w, t, g, l, sh, i, sv) && GoesIn(sh, t, g, sv, i, ch, sh', i', sv')
    ensures Holds(w, t, g, l, sh', i', sv')
  {
    hide Free, Body, Reached, ListsGames, ListsConns, RegisterLock, AcquireLock, ReleaseLock, UnregisterLock, Locked;
    var v := Locked(w, t, g, l);
    NextReached(Put(v, t, sh, Inside(g, l, i), sv), Go(t, ch));
    assert Step(Put(v, t, sh, Inside(g, l, i), sv), Go(t, ch)) == Put(v, t, sh', Inside(g, l, i'), sv');
  }

  const NOW: Time := Civil(2026, 1, 1, 0, 0, 0, 0)

  const ANN: PlayerId := 1

  const BOB: PlayerId := 2

  const CHOICE: Choice := Choice(false, NOW, [], [], 0, SocketGone, ExpirePlayer(ANN, NOW))

  /** Taking a lock that nobody uses. */
  lemma TakeLock(w: World, t: Tid, g: GameId, l: LockRef, sh: Shared, i: InPc, sv: Serving)
    requires Outside(w, t, sh, Lock(g, i), sv) && g !in w.locks && l !in w.objs
    ensures Holds(w, t, g, l, sh, i, sv)
  {
    hide Free, Body, Reached, ListsGames, ListsConns, ReleaseLock, UnregisterLock;
    var ch := CHOICE.(newRef := l);
    var u := Put(w, t, sh, Out(Lock(g, i)), sv);
    var v := Put(w, t, sh, Waiting(g, l, i), sv).(locks := w.locks[g := l], objs := w.objs[l := LockObj(1, None)]);
    NextReached(u, Go(t, ch));
    assert Step(u, Go(t, ch)) == v;
    NextReached(v, Go(t, ch));
    assert Step(v, Go(t, ch)) == Put(Locked(w, t, g, l), t, sh, Inside(g, l, i), sv);
  }

  /** World w, but that lock object l has been used. */
  function Used(w: World, l: LockRef): World {
    w.(objs := w.objs[l := LockObj(0, None)])
  }

  /** Giving up a lock that nobody else wants. */
  lemma GiveUp(w: World, t: Tid, g: GameId, l: LockRef, sh: Shared, o: OutPc, sv: Serving)
    requires Holds(w, t, g, l, sh, LeaveLock(o), sv) && g !in w.locks && l !in w.objs
    ensures Outside(Used(w, l), t, sh, o, sv)
  {
    hide Reached, Enabled, Step;
    var u := Put(Locked(w, t, g, l), t, sh, Inside(g, l, LeaveLock(o)), sv);
    var v := Put(w, t, sh, Exiting(g, l, o), sv).(locks := w.locks[g := l], objs := w.objs[l := LockObj(1, None)]);
    ReleaseGoes(w, t, g, l, sh, o, sv);
    NextReached(u, Go(t, CHOICE));
    UnregisterGoes(w, t, g, l, sh, o, sv);
    NextReached(v, Go(t, CHOICE));
  }

  lemma ReleaseGoes(w: World, t: Tid, g: GameId, l: LockRef, sh: Shared, o: OutPc, sv: Serving)
    ensures
      var u := Put(Locked(w, t, g, l), t, sh, Inside(g, l, LeaveLock(o)), sv);
      var v := Put(w, t, sh, Exiting(g, l, o), sv).(locks := w.locks[g := l], objs := w.objs[l := LockObj(1, None)]);
      Enabled(u, Go(t, CHOICE)) && Step(u, Go(t, CHOICE)) == v
  {
    hide Free, Body, Lists;
  }

  lemma UnregisterGoes(w: World, t: Tid, g: GameId, l: LockRef, sh: Shared, o: OutPc, sv: Serving)
    requires g !in w.locks
    ensures
      var v := Put(w, t, sh, Exiting(g, l, o), sv).(locks := w.locks[g := l], objs := w.objs[l := LockObj(1, None)]);
      Enabled(v, Go(t, CHOICE)) && Step(v, Go(t, CHOICE)) == Put(Used(w, l), t, sh, Out(o), sv)
  {
    hide Free, Body, Lists, RegisterLock, AcquireLock, ReleaseLock;
    Removed(w.locks, g, l);
  }

  lemma Removed(locks: map<GameId, LockRef>, g: GameId, l: LockRef)
    requires g !in locks
    ensures locks[g := l] - {g} == locks
  {
  }

  // ----- Loops of sends -----

  /** The shared state after the rest of a loop of sends. */
  function Told(sh: Shared, todo: seq<ConnId>, msgs: seq<Msg>, seats: map<ConnId, Seat>, next: nat): Shared
    decreases |todo|, |msgs| - next
  {
    if todo == [] || next >= |msgs| then sh
    else
      var sh' := sh.Sent(todo[0], Rendered(msgs[next], seats, todo[0]));
      if next + 1 < |msgs| then Told(sh', todo, msgs, seats, next + 1) else Told(sh', todo[1..], msgs, seats, 0)
  }

  /** The shared state after a whole loop. */
  function ToldAll(sh: Shared, todo: seq<ConnId>, msgs: seq<Msg>, seats: map<ConnId, Seat>): Shared {
    Told(sh, todo, msgs, seats, 0)
  }

  lemma {:induction false} SendsGo(w: World, t: Tid, g: GameId, l: LockRef, sh: Shared, sv: Serving, todo: seq<ConnId>,
                                   msgs: seq<Msg>, seats: map<ConnId, Seat>, next: nat, k: Then)
    requires Holds(w, t, g, l, sh, Sends(todo, msgs, seats, next, k), sv) && next < |msgs|
    ensures Holds(w, t, g, l, Told(sh, todo, msgs, seats, next), Following(k), sv)
    decreases |todo|, |msgs| - next
  {
    hide Holds, Rendered, Following, Shared.Sent;
    var to := SendNext(sh, todo, msgs, seats, next, k, sv);
    GoIn(w, t, g, l, sh, sv, Sends(todo, msgs, seats, next, k), CHOICE, to.sh, to.pc, sv);
    if todo != [] && next + 1 < |msgs| {
      SendsGo(w, t, g, l, to.sh, sv, todo, msgs, seats, next + 1, k);
    } else if |todo| > 1 {
      SendsGo(w, t, g, l, to.sh, sv, todo[1..], msgs, seats, 0, k);
    }
  }

  lemma TellAll(w: World, t: Tid, g: GameId, l: LockRef, sh: Shared, sv: Serving, todo: seq<ConnId>, msgs: seq<Msg>,
                seats: map<ConnId, Seat>, k: Then)
    requires Holds(w, t, g, l, sh, SendAll(todo, msgs, seats, k), sv) && msgs != []
    ensures Holds(w, t, g, l, ToldAll(sh, todo, msgs, seats), Following(k), sv)
  {
    hide Holds, Following, Told;
    SendsGo(w, t, g, l, sh, sv, todo, msgs, seats, 0, k);
  }

  // ----- A player authenticates -----

  function Asking(rid: RequestId, a: Action): Choice {
    CHOICE.(frame := Request(rid, a))
  }

  /** The secrets of all players and games. */
  const KEY: Digest := 9

  /** Connection c is live and has room for some messages. */
  predicate Roomy(sh: Shared, c: ConnId) {
    match Get(sh.chan, c)
    case Some(ch) => ch.closing.None? && ch.taken == 0 && |ch.log| < 20
    case None => false
  }

  /** Player p is stored, with that secret. */
  predicate Knows(sh: Shared, p: PlayerId) {
    match Get(sh.db.players, p)
    case Some(row) => row.digest == KEY
    case None => false
  }

  lemma AuthChecks(sh: Shared, c: ConnId, p: PlayerId, sv: Serving, rid: RequestId)
    requires Roomy(sh, c) && sh.PlayerOn(c).None? && Knows(sh, p)
    ensures
      var t, a, asked, sv' := Reader(c), Authenticate(p, KEY), sh.Asked(c, rid), Serving(rid, false);
      && Goes(sh, t, sv, Idle, Asking(rid, a), sh, Dispatch(a), sv')
      && Goes(sh, t, sv', Dispatch(a), CHOICE, asked, Gate(a), sv')
      && Goes(asked, t, sv', Gate(a), CHOICE, asked, AuthCheck(p, KEY), sv')
      && Goes(asked, t, sv', AuthCheck(p, KEY), CHOICE, asked, AuthLoad(p, KEY), sv')
      && Goes(asked, t, sv', AuthLoad(p, KEY), CHOICE, asked, AuthTouch(p), sv')
  {
  }

  /** Where authenticating leads when a connection is replaced, and when none is. */
  function Notifying(prior: Option<ConnId>): OutPc {
    match prior
    case Some(d) => AuthNotify(d)
    case None => Idle
  }

  /** The shared state once player p has authenticated on connection c. */
  function Bound(sh: Shared, c: ConnId, p: PlayerId, rid: RequestId): Shared {
    sh.Asked(c, rid).(db := TouchPlayer(sh.db, p, NOW), reg := Bind(sh.reg, c, p)).Sent(c, Direct(rid, Ok))
  }

  lemma AuthBinds(sh: Shared, c: ConnId, p: PlayerId, rid: RequestId)
    requires Get(sh.reg.players, p) != Some(c)
    ensures
      var t, sv, asked, prior := Reader(c), Serving(rid, true), sh.Asked(c, rid), Get(sh.reg.players, p);
      var touched := asked.(db := TouchPlayer(sh.db, p, NOW));
      var bound := touched.(reg := Bind(sh.reg, c, p));
      && Goes(asked, t, Serving(rid, false), AuthTouch(p), CHOICE, touched, AuthRegister(p), sv)
      && Goes(touched, t, sv, AuthRegister(p), CHOICE, bound, AuthReply(prior), sv)
      && Goes(bound, t, sv, AuthReply(prior), CHOICE, Bound(sh, c, p, rid), Notifying(prior), sv)
  {
    hide TouchPlayer, Bind, Send;
  }

  /** Authenticating up to the reply, after which the connection before is replaced, if there is one. */
  lemma Authenticates(w: World, sh: Shared, c: ConnId, p: PlayerId, sv: Serving, rid: RequestId)
    requires Outside(w, Reader(c), sh, Idle, sv) && Roomy(sh, c)
    requires sh.PlayerOn(c).None? && Knows(sh, p) && Get(sh.reg.players, p) != Some(c)
    ensures Outside(w, Reader(c), Bound(sh, c, p, rid), Notifying(Get(sh.reg.players, p)), Serving(rid, true))
  {
    hide *;
    AuthChecks(sh, c, p, sv, rid);
    AuthBinds(sh, c, p, rid);
    var t, a, asked, sv', prior := Reader(c), Authenticate(p, KEY), sh.Asked(c, rid), Serving(rid, false),
        Get(sh.reg.players, p);
    var touched := asked.(db := TouchPlayer(sh.db, p, NOW));
    var bound := touched.(reg := Bind(sh.reg, c, p));
    GoOut(w, t, sh, sv, Idle, Asking(rid, a), sh, Dispatch(a), sv');
    GoOut(w, t, sh, sv', Dispatch(a), CHOICE, asked, Gate(a), sv');
    GoOut(w, t, asked, sv', Gate(a), CHOICE, asked, AuthCheck(p, KEY), sv');
    GoOut(w, t, asked, sv', AuthCheck(p, KEY), CHOICE, asked, AuthLoad(p, KEY), sv');
    GoOut(w, t, asked, sv', AuthLoad(p, KEY), CHOICE, asked, AuthTouch(p), sv');
    GoOut(w, t, asked, sv', AuthTouch(p), CHOICE, touched, AuthRegister(p), Serving(rid, true));
    GoOut(w, t, touched, Serving(rid, true), AuthRegister(p), CHOICE, bound, AuthReply(prior), Serving(rid, true));
    GoOut(w, t, bound, Serving(rid, true), AuthReply(prior), CHOICE, Bound(sh, c, p, rid), Notifying(prior),
        Serving(rid, true));
  }

  /** The shared state once a replaced connection has been told and closed. */
  function Superseded(sh: Shared, prior: ConnId): Shared {
    sh.Sent(prior, Replaced).Closed(prior, CLOSE_REPLACED)
  }

  lemma ReplacingGoes(sh: Shared, c: ConnId, prior: ConnId, sv: Serving)
    requires sh.Place(prior) == Nowhere
    ensures
      var t, told, closed := Reader(c), sh.Sent(prior, Replaced), Superseded(sh, prior);
      && Goes(sh, t, sv, AuthNotify(prior), CHOICE, told, AuthClose(prior), sv)
      && Goes(told, t, sv, AuthClose(prior), CHOICE, closed, DetachRead(prior, 0, Rest), sv)
      && Goes(closed, t, sv, DetachRead(prior, 0, Rest), CHOICE, closed, Idle, sv)
  {
    hide Send, Close;
  }

  /** A replaced connection that is in no game is told and closed. */
  lemma Replaces(w: World, sh: Shared, c: ConnId, prior: ConnId, sv: Serving)
    requires Outside(w, Reader(c), sh, AuthNotify(prior), sv) && sh.Place(prior) == Nowhere
    ensures Outside(w, Reader(c), Superseded(sh, prior), Idle, sv)
  {
    hide *;
    ReplacingGoes(sh, c, prior, sv);
    var t, told, closed := Reader(c), sh.Sent(prior, Replaced), Superseded(sh, prior);
    GoOut(w, t, sh, sv, AuthNotify(prior), CHOICE, told, AuthClose(prior), sv);
    GoOut(w, t, told, sv, AuthClose(prior), CHOICE, closed, DetachRead(prior, 0, Rest), sv);
    GoOut(w, t, closed, sv, DetachRead(prior, 0, Rest), CHOICE, closed, Idle, sv);
  }

  // ----- A player connects to a game it sits in -----

  /** Player p may return to a seat of game g, whose row is given. */
  predicate Playable(sh: Shared, g: GameId, p: PlayerId, row: Game, seat: Seat) {
    && Get(sh.db.games, g) == Some(row) && g in sh.saves && row.digest == KEY
    && row.state.status != Status.Closed && row.SeatOf(p) == Some(seat)
    && sh.db.Refers(row.host) && sh.db.Refers(row.guest)
  }

  lemma ToLockGoes(sh: Shared, c: ConnId, p: PlayerId, g: GameId, row: Game, seat: Seat, sv: Serving, rid: RequestId)
    requires Roomy(sh, c) && sh.PlayerOn(c) == Some(p) && sh.Place(c) == Nowhere && Playable(sh, g, p, row, seat)
    ensures
      var t, a, asked, sv' := Reader(c), Connect(g, KEY), sh.Asked(c, rid), Serving(rid, false);
      && Goes(sh, t, sv, Idle, Asking(rid, a), sh, Dispatch(a), sv')
      && Goes(sh, t, sv', Dispatch(a), CHOICE, asked, Gate(a), sv')
      && Goes(asked, t, sv', Gate(a), CHOICE, asked, ConnLoad(g, KEY), sv')
      && Goes(asked, t, sv', ConnLoad(g, KEY), CHOICE, asked, ConnPlayer(g, KEY), sv')
      && Goes(asked, t, sv', ConnPlayer(g, KEY), CHOICE, asked, ConnCurrent(g, p, KEY), sv')
      && Goes(asked, t, sv', ConnCurrent(g, p, KEY), CHOICE, asked, Lock(g, ConnReload(p, KEY)), sv')
  {
  }

  /** Connecting up to the lock of the game. */
  lemma ConnectsToLock(w: World, sh: Shared, c: ConnId, p: PlayerId, g: GameId, row: Game, seat: Seat, sv: Serving,
                       rid: RequestId)
    requires Outside(w, Reader(c), sh, Idle, sv)
    requires Roomy(sh, c) && sh.PlayerOn(c) == Some(p) && sh.Place(c) == Nowhere && Playable(sh, g, p, row, seat)
    ensures Outside(w, Reader(c), sh.Asked(c, rid), Lock(g, ConnReload(p, KEY)), Serving(rid, false))
  {
    hide *;
    ToLockGoes(sh, c, p, g, row, seat, sv, rid);
    var t, a, asked, sv' := Reader(c), Connect(g, KEY), sh.Asked(c, rid), Serving(rid, false);
    GoOut(w, t, sh, sv, Idle, Asking(rid, a), sh, Dispatch(a), sv');
    GoOut(w, t, sh, sv', Dispatch(a), CHOICE, asked, Gate(a), sv');
    GoOut(w, t, asked, sv', Gate(a), CHOICE, asked, ConnLoad(g, KEY), sv');
    GoOut(w, t, asked, sv', ConnLoad(g, KEY), CHOICE, asked, ConnPlayer(g, KEY), sv');
    GoOut(w, t, asked, sv', ConnPlayer(g, KEY), CHOICE, asked, ConnCurrent(g, p, KEY), sv');
    GoOut(w, t, asked, sv', ConnCurrent(g, p, KEY), CHOICE, asked, Lock(g, ConnReload(p, KEY)), sv');
  }

  /** The store after the save of a player who returns to a seat. */
  function SavedBy(sh: Shared, g: GameId, p: PlayerId, row: Game): Shared {
    sh.(db := TouchPlayer(sh.db.(games := sh.db.games[g := row.(lastActive := NOW)]), p, NOW))
      .Committed(g, Reconnected, row.state)
  }

  /** The shared state once the connection is attached, and the view it gets. */
  function SatDown(sh: Shared, c: ConnId, p: PlayerId, g: GameId, row: Game, seat: Seat): Shared {
    var saved := SavedBy(sh, g, p, row);
    saved.(reg := Attach(saved.reg, c, g, seat))
  }

  function SnapFor(sh: Shared, c: ConnId, p: PlayerId, g: GameId, row: Game, seat: Seat, you: Seat): Snap {
    var sat := SatDown(sh, c, p, g, row, seat);
    Snap(g, sat.Version(g), sat.View(g, row.(lastActive := NOW)), you)
  }

  /** The shared state once it has been answered. */
  function Answered(sh: Shared, c: ConnId, p: PlayerId, g: GameId, row: Game, seat: Seat, rid: RequestId): Shared {
    SatDown(sh, c, p, g, row, seat).Sent(c, Direct(rid, OkConnected(SnapFor(sh, c, p, g, row, seat, seat))))
  }

  function Announcement(sh: Shared, c: ConnId, p: PlayerId, g: GameId, row: Game, seat: Seat): seq<Msg> {
    [OpponentConnected(seat), StateIs(SnapFor(sh, c, p, g, row, seat, seat.Other()))]
  }

  /** The shared state once player p has connected to game g, and the others have been told. */
  function Joined(sh: Shared, c: ConnId, p: PlayerId, g: GameId, row: Game, seat: Seat, rid: RequestId,
                  others: seq<ConnId>): Shared
  {
    ToldAll(Answered(sh, c, p, g, row, seat, rid), others, Announcement(sh, c, p, g, row, seat), map[])
  }

  lemma SavingGoes(sh: Shared, c: ConnId, p: PlayerId, g: GameId, row: Game, seat: Seat, rid: RequestId)
    requires Playable(sh, g, p, row, seat)
    ensures
      var t, sv, saved := Reader(c), Serving(rid, false), SavedBy(sh, g, p, row);
      var saving, attaching := ConnSave(p, row, seat, false),
          ConnAttach(seat, row.(lastActive := NOW), saved.Version(g), false);
      && GoesIn(sh, t, g, sv, ConnReload(p, KEY), CHOICE, sh, saving, sv)
      && GoesIn(sh, t, g, sv, saving, CHOICE, saved, attaching, Serving(rid, true))
  {
  }

  lemma AttachingGoes(sh: Shared, c: ConnId, p: PlayerId, g: GameId, row: Game, seat: Seat, rid: RequestId)
    requires sh.Place(c) == Nowhere
    ensures
      var t, sv, row', saved, sat := Reader(c), Serving(rid, true), row.(lastActive := NOW), SavedBy(sh, g, p, row),
          SatDown(sh, c, p, g, row, seat);
      var v, view := saved.Version(g), sat.View(g, row');
      && GoesIn(saved, t, g, sv, ConnAttach(seat, row', v, false), CHOICE, sat, ConnView(seat, row', v, false, false),
          sv)
      && GoesIn(sat, t, g, sv, ConnView(seat, row', v, false, false), CHOICE, sat, SendAll([c],
          [Direct(rid, OkConnected(SnapFor(sh, c, p, g, row, seat, seat)))], map[], ThenConnList(seat, view, v)), sv)
  {
    hide Attach, Shared.View, TouchPlayer;
  }

  lemma ListingGoes(sh: Shared, c: ConnId, p: PlayerId, g: GameId, row: Game, seat: Seat, rid: RequestId,
                    others: seq<ConnId>)
    requires Lists(others, sh.reg.Attached(g) - {c})
    ensures
      var t, sv, sat, answered := Reader(c), Serving(rid, true), SatDown(sh, c, p, g, row, seat),
          Answered(sh, c, p, g, row, seat, rid);
      var v, view := SavedBy(sh, g, p, row).Version(g), sat.View(g, row.(lastActive := NOW));
      && answered == ToldAll(sat, [c], [Direct(rid, OkConnected(SnapFor(sh, c, p, g, row, seat, seat)))], map[])
      && GoesIn(answered, t, g, sv, ConnList(seat, view, v), CHOICE.(conns := others), answered,
          SendAll(others, Announcement(sh, c, p, g, row, seat), map[], ThenLeave(Idle)), sv)
  {
    hide Shared.View, TouchPlayer, Send;
    assert Attach(sh.reg, c, g, seat).Attached(g) - {c} == sh.reg.Attached(g) - {c};
    hide Attach, Lists;
    var sat := SatDown(sh, c, p, g, row, seat);
    var reply := Direct(rid, OkConnected(SnapFor(sh, c, p, g, row, seat, seat)));
    assert Told(sat.Sent(c, reply), [c][1..], [reply], map[], 0) == sat.Sent(c, reply);
  }

  /** Connecting, from waiting for the lock of the game to being idle again. */
  lemma ConnectsFromLock(w: World, sh: Shared, c: ConnId, p: PlayerId, g: GameId, row: Game, seat: Seat, l: LockRef,
                         rid: RequestId, others: seq<ConnId>)
    requires Outside(w, Reader(c), sh, Lock(g, ConnReload(p, KEY)), Serving(rid, false))
    requires Playable(sh, g, p, row, seat) && sh.Place(c) == Nowhere && Lists(others, sh.reg.Attached(g) - {c})
    requires g !in w.locks && l !in w.objs
    ensures Outside(Used(w, l), Reader(c), Joined(sh, c, p, g, row, seat, rid, others), Idle, Serving(rid, true))
  {
    hide *;
    var t, sv, sv', row' := Reader(c), Serving(rid, false), Serving(rid, true), row.(lastActive := NOW);
    var saved, sat := SavedBy(sh, g, p, row), SatDown(sh, c, p, g, row, seat);
    var answered := Answered(sh, c, p, g, row, seat, rid);
    var v, view := saved.Version(g), sat.View(g, row');
    var reply := Direct(rid, OkConnected(SnapFor(sh, c, p, g, row, seat, seat)));
    SavingGoes(sh, c, p, g, row, seat, rid);
    AttachingGoes(sh, c, p, g, row, seat, rid);
    ListingGoes(sh, c, p, g, row, seat, rid, others);
    TakeLock(w, t, g, l, sh, ConnReload(p, KEY), sv);
    GoIn(w, t, g, l, sh, sv, ConnReload(p, KEY), CHOICE, sh, ConnSave(p, row, seat, false), sv);
    GoIn(w, t, g, l, sh, sv, ConnSave(p, row, seat, false), CHOICE, saved, ConnAttach(seat, row', v, false), sv');
    GoIn(w, t, g, l, saved, sv', ConnAttach(seat, row', v, false), CHOICE, sat, ConnView(seat, row', v, false, false),
        sv');
    GoIn(w, t, g, l, sat, sv', ConnView(seat, row', v, false, false), CHOICE, sat,
        SendAll([c], [reply], map[], ThenConnList(seat, view, v)), sv');
    TellAll(w, t, g, l, sat, sv', [c], [reply], map[], ThenConnList(seat, view, v));
    ThenLists(w, t, g, l, answered, sv', seat, view, v);
    GoIn(w, t, g, l, answered, sv', ConnList(seat, view, v), CHOICE.(conns := others), answered,
        SendAll(others, Announcement(sh, c, p, g, row, seat), map[], ThenLeave(Idle)), sv');
    Announced(w, sh, c, p, g, row, seat, l, rid, others);
    GiveUp(w, t, g, l, Joined(sh, c, p, g, row, seat, rid, others), Idle, sv');
  }

  lemma Announced(w: World, sh: Shared, c: ConnId, p: PlayerId, g: GameId, row: Game, seat: Seat, l: LockRef,
                  rid: RequestId, others: seq<ConnId>)
    requires Holds(w, Reader(c), g, l, Answered(sh, c, p, g, row, seat, rid),
        SendAll(others, Announcement(sh, c, p, g, row, seat), map[], ThenLeave(Idle)), Serving(rid, true))
    ensures Holds(w, Reader(c), g, l, Joined(sh, c, p, g, row, seat, rid, others), LeaveLock(Idle), Serving(rid, true))
  {
    hide Holds, Answered, ToldAll;
    TellAll(w, Reader(c), g, l, Answered(sh, c, p, g, row, seat, rid), Serving(rid, true), others,
        Announcement(sh, c, p, g, row, seat), map[], ThenLeave(Idle));
  }

  /** After the reply the others are listed. */
  lemma ThenLists(w: World, t: Tid, g: GameId, l: LockRef, sh: Shared, sv: Serving, seat: Seat, view: GameView, v: nat)
    requires Holds(w, t, g, l, sh, Following(ThenConnList(seat, view, v)), sv)
    ensures Holds(w, t, g, l, sh, ConnList(seat, view, v), sv)
  {
    hide Holds;
  }
}
