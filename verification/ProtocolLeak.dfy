/**
 * A run in which a replaced connection that had passed its last check before the lock attaches to a seat in which the
 * newer connection already sits. The newer connection is sent what is meant for the other seat, and with it a throw
 * that is hidden from its player; and when the replaced connection goes, clients show the seat as empty.
 */
module ProtocolLeak {
  import opened Wrappers
  import opened Rules
  import opened Store
  import opened Registry
  import opened Snapshots
  import opened Protocol
  import opened ProtocolDoes
  import opened ProtocolInvariant
  import opened ProtocolLast
  import opened ProtocolPresence
  import opened ProtocolAlike
  import opened ProtocolSecrecy
  import opened ProtocolRuns

  const GAME: GameId := 7

  /** The host's connections. */
  const OLD: ConnId := 0

  const NEW: ConnId := 1

  /** The lock objects that are used, one after the other. */
  const L0: LockRef := 0

  const L1: LockRef := 1

  const L2: LockRef := 2

  /** Both players sit in the game, and only the guest has thrown. */
  const ROUND: State := State(Active, WaitingForMoves, Pending, Rock, 0, 0, 0)

  const ROW: Game := Game(KEY, Some(ANN), Some(BOB), ROUND, NOW)

  const STORED: Db := Db(
    map[ANN := Player("ann", 0, KEY, NOW), BOB := Player("bob", 0, KEY, NOW)], map[GAME := ROW])

  /** Everybody is idle. */
  function Base(): World {
    With(With(Initial(Stored(STORED)), OLD), NEW)
  }

  lemma BaseReached()
    ensures Reached(Base()) && Base().locks == map[] && Base().objs == map[]
    ensures Base().threads == map[Sweeper := IDLE, Reader(OLD) := IDLE, Reader(NEW) := IDLE]
  {
    hide Reached;
    assert STORED.ForeignKeys();
    StartReached(STORED);
    Arrives(Initial(Stored(STORED)), OLD);
    Arrives(With(Initial(Stored(STORED)), OLD), NEW);
  }

  // ----- The host connects twice -----

  /** The game is stored, with both its players. */
  predicate Playing(sh: Shared) {
    && Get(sh.db.games, GAME) == Some(ROW) && GAME in sh.saves && Knows(sh, ANN) && BOB in sh.db.players
    && sh.stale == {}
  }

  lemma MayPlay(sh: Shared)
    requires Playing(sh)
    ensures Playable(sh, GAME, ANN, ROW, Host)
  {
  }

  function Entering(): OutPc {
    Lock(GAME, ConnReload(ANN, KEY))
  }

  /** The host has authenticated on the old connection, which waits for the lock. */
  function OldWaits(): Shared {
    Bound(Base().sh, OLD, ANN, 0).Asked(OLD, 1)
  }

  lemma OldShape()
    ensures Roomy(Base().sh, OLD) && Base().sh.PlayerOn(OLD).None? && Knows(Base().sh, ANN)
    ensures Get(Base().sh.reg.players, ANN) == None
    ensures
      var sh := Bound(Base().sh, OLD, ANN, 0);
      sh.PlayerOn(OLD) == Some(ANN) && sh.Place(OLD) == Nowhere && Roomy(sh, OLD) && Playing(sh)
  {
  }

  /** Everybody is idle, but for the old connection. */
  function OldWorld(): World {
    Put(Base(), Reader(OLD), OldWaits(), Out(Entering()), Serving(1, false))
  }

  lemma OldEnters()
    ensures Reached(OldWorld())
  {
    hide Reached, Base, Bound, Roomy, Knows, Playing, Playable, Shared.Asked;
    BaseReached();
    OldShape();
    MayPlay(Bound(Base().sh, OLD, ANN, 0));
    OutsideItself(Base(), Reader(OLD), Idle, Serving(0, false));
    Authenticates(Base(), Base().sh, OLD, ANN, Serving(0, false), 0);
    ConnectsToLock(Base(), Bound(Base().sh, OLD, ANN, 0), OLD, ANN, GAME, ROW, Host, Serving(0, true), 1);
  }

  /** The new connection has replaced it. */
  function Replaced(): Shared {
    Superseded(Bound(OldWaits(), NEW, ANN, 0), OLD)
  }

  /** It waits for the lock, too. */
  function NewWaits(): Shared {
    Replaced().Asked(NEW, 1)
  }

  /** Both connections are in no game. */
  predicate Unattached(sh: Shared) {
    && Playing(sh) && sh.Place(OLD) == Nowhere && sh.Place(NEW) == Nowhere && sh.reg.games == map[]
    && Roomy(sh, NEW) && |sh.Log(NEW)| < 5
  }

  lemma NewShape()
    ensures Roomy(OldWaits(), NEW) && OldWaits().PlayerOn(NEW).None? && Knows(OldWaits(), ANN)
    ensures Get(OldWaits().reg.players, ANN) == Some(OLD) && Bound(OldWaits(), NEW, ANN, 0).Place(OLD) == Nowhere
    ensures Replaced().PlayerOn(NEW) == Some(ANN) && Unattached(Replaced())
    ensures Unattached(NewWaits())
  {
  }

  /** The new connection sits in the host's seat. */
  predicate Seated(sh: Shared) {
    && Playing(sh) && sh.Place(OLD) == Nowhere && sh.Place(NEW) == At(GAME, Host) && sh.reg.games == map[GAME := {NEW}]
    && Roomy(sh, NEW) && |sh.Log(NEW)| < 10
  }

  lemma SeatedShape(sh: Shared)
    requires Unattached(sh)
    ensures Lists([], sh.reg.Attached(GAME) - {NEW}) && Seated(Joined(sh, NEW, ANN, GAME, ROW, Host, 1, []))
  {
    hide ViewOf;
    assert sh.reg.Attached(GAME) + {NEW} == {NEW};
  }

  /** The new connection plays, and the old one waits for the lock. */
  function NewWorld(): World {
    Put(Used(OldWorld(), L0), Reader(NEW), Joined(NewWaits(), NEW, ANN, GAME, ROW, Host, 1, []), Out(Idle),
        Serving(1, true))
  }

  lemma NewEnters()
    ensures Reached(NewWorld()) && Seated(NewWorld().sh)
  {
    hide Reached, Base, Bound, OldWaits, Superseded, Roomy, Knows, Playing, Playable, Shared.Asked, Joined, Lists,
        Seated;
    BaseReached();
    OldEnters();
    NewShape();
    var w, t := OldWorld(), Reader(NEW);
    OutsideItself(w, t, Idle, Serving(0, false));
    Authenticates(w, OldWaits(), NEW, ANN, Serving(0, false), 0);
    Replaces(w, Bound(OldWaits(), NEW, ANN, 0), NEW, OLD, Serving(0, true));
    MayPlay(Replaced());
    ConnectsToLock(w, Replaced(), NEW, ANN, GAME, ROW, Host, Serving(0, true), 1);
    MayPlay(NewWaits());
    SeatedShape(NewWaits());
    ConnectsFromLock(w, NewWaits(), NEW, ANN, GAME, ROW, Host, L0, 1, []);
  }

  // ----- The old connection goes on -----

  /** Connection NEW is live and sits in the host's seat, and its last snapshot shows the guest's hidden throw. */
  predicate ShowsHidden(sh: Shared) {
    && sh.Place(NEW) == At(GAME, Host) && !sh.Closing(NEW) && sh.State(GAME) == Some(ROUND)
    && match LastTo(sh, NEW)
       case Some(last) => last.game == GAME && last.Payload().status == Active && Reveals(last.Payload().Of(Guest))
       case None => false
  }

  predicate Reveals(view: Option<PlayerView>) {
    match view
    case Some(v) => v.move == Some(Rock)
    case None => false
  }

  /** Two connections sit in the host's seat. */
  predicate Crowded(sh: Shared) {
    && sh.reg.games == map[GAME := {OLD, NEW}] && sh.Place(OLD) == At(GAME, Host) && sh.Place(NEW) == At(GAME, Host)
    && Roomy(sh, NEW) && sh.stale == {}
  }

  lemma AnsweredShape(sh: Shared)
    requires Seated(sh)
    ensures
      var sh' := Answered(sh, OLD, ANN, GAME, ROW, Host, 1);
      && sh'.reg.games == map[GAME := {OLD, NEW}] && sh'.Place(OLD) == At(GAME, Host)
          && sh'.Place(NEW) == At(GAME, Host)
      && Roomy(sh', NEW) && |sh'.Log(NEW)| < 10 && sh'.stale == {} && sh'.State(GAME) == Some(ROUND)
  {
    hide ViewOf;
    assert sh.reg.Attached(GAME) + {OLD} == {OLD, NEW};
  }

  /** What the new connection is told when the old one attaches. */
  lemma CrowdedShape(sh: Shared)
    requires Seated(sh)
    ensures Lists([NEW], sh.reg.Attached(GAME) - {OLD})
    ensures
      var sh' := Joined(sh, OLD, ANN, GAME, ROW, Host, 1, [NEW]);
      ShowsHidden(sh') && Crowded(sh')
  {
    hide ViewOf, LastSnap, Answered, SatDown;
    AnsweredShape(sh);
    var answered := Answered(sh, OLD, ANN, GAME, ROW, Host, 1);
    var snap := SnapFor(sh, OLD, ANN, GAME, ROW, Host, Guest);
    ToldBoth(answered, OpponentConnected(Host), StateIs(snap));
    LastAppended(answered.Sent(NEW, OpponentConnected(Host)).Log(NEW), StateIs(snap));
    ThrowShown(sh);
  }

  /** The guest's rendering shows its throw. */
  lemma ThrowShown(sh: Shared)
    requires Seated(sh)
    ensures
      var snap := SnapFor(sh, OLD, ANN, GAME, ROW, Host, Guest);
      snap.game == GAME && snap.Payload().status == Active && Reveals(snap.Payload().Of(Guest))
  {
    hide Present;
    NamesShown(SatDown(sh, OLD, ANN, GAME, ROW, Host));
  }

  lemma ToldBoth(sh: Shared, first: Msg, second: Msg)
    ensures ToldAll(sh, [NEW], [first, second], map[]) == sh.Sent(NEW, first).Sent(NEW, second)
  {
    hide Shared.Sent;
    var sh' := sh.Sent(NEW, first);
    var sh'' := sh'.Sent(NEW, second);
    assert Told(sh'', [NEW][1..], [first, second], map[], 0) == sh'';
    assert Told(sh', [NEW], [first, second], map[], 1) == sh'';
  }

  lemma NamesShown(sh: Shared)
    requires BOB in sh.db.players
    ensures Guest in sh.View(GAME, ROW).names
  {
  }

  /** Everybody is idle. */
  function LeakWorld(): World {
    Put(Used(NewWorld(), L1), Reader(OLD), Joined(NewWorld().sh, OLD, ANN, GAME, ROW, Host, 1, [NEW]), Out(Idle),
        Serving(1, true))
  }

  /**
   * A locked-in throw can be shown to the opponent while the round is ACTIVE: a run from one stored game to a world
   * in which the host's live connection has just been sent the guest's rendering of a game, with the guest's throw.
   */
  lemma ThrowsMayBeShown()
    ensures Reached(LeakWorld()) && ShowsHidden(LeakWorld().sh) && Crowded(LeakWorld().sh)
  {
    hide Reached, Base, OldWaits, NewWaits, Joined, Playing, Playable, ShowsHidden, Crowded, Lists;
    BaseReached();
    NewEnters();
    var w := NewWorld();
    MayPlay(w.sh);
    CrowdedShape(w.sh);
    OutsideItself(w, Reader(OLD), Entering(), Serving(1, false));
    ConnectsFromLock(w, w.sh, OLD, ANN, GAME, ROW, Host, L1, 1, [NEW]);
  }

  /** Every run to that world seats another connection beside the host's live one, or that one in the guest's seat. */
  lemma ShownOnlyBeside(v: World)
    requires Init(v)
    ensures !LeadsBy(v, LeakWorld(), (u, e) => Fair(u, e, NEW, Secret(GAME, Guest)))
  {
    hide Init, LeadsBy, LeakWorld, Fair, Reached, Turned;
    if LeadsBy(v, LeakWorld(), (u, e) => Fair(u, e, NEW, Secret(GAME, Guest))) {
      ThrowsMayBeShown();
      FairTurns(v, LeakWorld(), NEW, Secret(GAME, Guest));
      ShownNotTurned(LeakWorld());
      assert false;
    }
  }

  lemma ShownNotTurned(w: World)
    requires ShowsHidden(w.sh)
    ensures !Turned(w, NEW, Secret(GAME, Guest))
  {
    LastSent(w.sh.Log(NEW));
  }

  lemma {:induction false} LastSent(log: seq<Msg>)
    requires LastSnap(log).Some?
    ensures exists m :: m in log && SnapOf(m) == LastSnap(log)
  {
    if SnapOf(log[|log| - 1]).Some? {
      assert log[|log| - 1] in log;
    } else {
      LastSent(log[..|log| - 1]);
    }
  }

  // ----- The old connection goes -----

  /** The shared state when the socket of the old connection has failed and it has been detached. */
  function Freed(sh: Shared): Shared {
    var closed := sh.Closed(OLD, CLOSE_NORMAL);
    closed.(reg := Detach(closed.reg, OLD))
  }

  const FAILING: Choice := CHOICE.(conns := [NEW])

  const CHECKING: InPc := DetachCheck(OLD, 0, GoForget)

  const NEWS: seq<Msg> := [OpponentDisconnected(Host)]

  lemma FailingGoes(sh: Shared)
    requires Crowded(sh)
    ensures
      var t, closed, sv := Reader(OLD), sh.Closed(OLD, CLOSE_NORMAL), Serving(0, false);
      && Goes(sh, t, Serving(1, true), Idle, FAILING, sh, DiscClose, sv)
      && Goes(sh, t, sv, DiscClose, FAILING, closed, DetachRead(OLD, 0, GoForget), sv)
      && Goes(closed, t, sv, DetachRead(OLD, 0, GoForget), FAILING, closed, Lock(GAME, CHECKING), sv)
  {
    hide Close, Roomy;
    assert sh.Closed(OLD, CLOSE_NORMAL).reg == sh.reg;
  }

  lemma DetachingGoes(sh: Shared)
    requires Crowded(sh)
    ensures GoesIn(sh.Closed(OLD, CLOSE_NORMAL), Reader(OLD), GAME, Serving(0, false), CHECKING, FAILING, Freed(sh),
        SendAll([NEW], NEWS, map[], ThenLeave(DiscForget)), Serving(0, false))
  {
    hide Detach, Close, Roomy;
    assert sh.Closed(OLD, CLOSE_NORMAL).reg == sh.reg;
    assert sh.reg.Attached(GAME) - {OLD} == {NEW};
  }

  /** The new connection is live in the host's seat, and shows it as empty. */
  lemma FreedShape(sh: Shared)
    requires Crowded(sh)
    ensures
      var sh' := ToldAll(Freed(sh), [NEW], NEWS, map[]);
      sh'.stale == {} && Overlooks(sh', GAME, NEW, Host) && NEW in sh'.reg.Attached(GAME) && !sh'.Closing(NEW)
  {
    hide ShownTo;
    var freed := Freed(sh);
    assert HasRoom(freed, NEW) && freed.stale == {};
    assert NEW in freed.reg.Attached(GAME) && freed.Place(NEW) == At(GAME, Host) && !freed.Closing(NEW);
    hide Freed;
    var sh' := freed.Sent(NEW, OpponentDisconnected(Host));
    assert Told(sh', [NEW][1..], NEWS, map[], 0) == sh';
    GoingSaid(freed, GAME, NEW, Host);
  }

  /** Nobody but the reader of the old connection does anything. */
  function GoneWorld(): World {
    Put(Used(LeakWorld(), L2), Reader(OLD), ToldAll(Freed(LeakWorld().sh), [NEW], NEWS, map[]), Out(DiscForget),
        Serving(0, false))
  }

  /** The old connection's socket fails. */
  lemma Fails(w: World, sh: Shared)
    requires Outside(w, Reader(OLD), sh, Idle, Serving(1, true)) && Crowded(sh) && GAME !in w.locks && L2 !in w.objs
    ensures Outside(Used(w, L2), Reader(OLD), ToldAll(Freed(sh), [NEW], NEWS, map[]), DiscForget, Serving(0, false))
  {
    hide *;
    var t, closed, sv := Reader(OLD), sh.Closed(OLD, CLOSE_NORMAL), Serving(0, false);
    FailingGoes(sh);
    DetachingGoes(sh);
    GoOut(w, t, sh, Serving(1, true), Idle, FAILING, sh, DiscClose, sv);
    GoOut(w, t, sh, sv, DiscClose, FAILING, closed, DetachRead(OLD, 0, GoForget), sv);
    GoOut(w, t, closed, sv, DetachRead(OLD, 0, GoForget), FAILING, closed, Lock(GAME, CHECKING), sv);
    TakeLock(w, t, GAME, L2, closed, CHECKING, sv);
    GoIn(w, t, GAME, L2, closed, sv, CHECKING, FAILING, Freed(sh), SendAll([NEW], NEWS, map[], ThenLeave(DiscForget)),
        sv);
    TellGone(w, Freed(sh));
    GiveUp(w, t, GAME, L2, ToldAll(Freed(sh), [NEW], NEWS, map[]), DiscForget, sv);
  }

  lemma TellGone(w: World, sh: Shared)
    requires Holds(w, Reader(OLD), GAME, L2, sh, SendAll([NEW], NEWS, map[], ThenLeave(DiscForget)), Serving(0, false))
    ensures Holds(w, Reader(OLD), GAME, L2, ToldAll(sh, [NEW], NEWS, map[]), LeaveLock(DiscForget), Serving(0, false))
  {
    hide Holds, ToldAll;
    TellAll(w, Reader(OLD), GAME, L2, sh, Serving(0, false), [NEW], NEWS, map[], ThenLeave(DiscForget));
  }

  /**
   * A client may overlook a live connection: a run to a world in which the lock of the game is free, nothing has
   * failed, connection NEW is attached and live in the host's seat, and was told last that the host has gone.
   */
  lemma SeatsMayBeOverlooked()
    ensures Reached(GoneWorld()) && LockFree(GoneWorld(), GAME) && GoneWorld().sh.stale == {}
    ensures Overlooks(GoneWorld().sh, GAME, NEW, Host)
    ensures NEW in GoneWorld().sh.reg.Attached(GAME) && !GoneWorld().sh.Closing(NEW)
  {
    hide Reached, Base, OldWaits, NewWaits, Joined, Crowded, ShowsHidden, Overlooks, Freed, ToldAll;
    BaseReached();
    ThrowsMayBeShown();
    var w := LeakWorld();
    FreedShape(w.sh);
    OutsideItself(w, Reader(OLD), Idle, Serving(1, true));
    Fails(w, w.sh);
  }

  /** Every run to that world detaches a connection from beside a live one, if the two players of the game differ. */
  lemma OverlookedOnlyBeside(v: World)
    requires Init(v) && Differ(v.sh, GAME)
    ensures !LeadsBy(v, GoneWorld(), (u, e) => !LeavesBeside(u, e, GAME) && !Strands(u, e, GAME))
  {
    hide Init, LeadsBy, GoneWorld, LeavesBeside, Strands, Reached, LockFree, ShownTo, Differ;
    if LeadsBy(v, GoneWorld(), (u, e) => !LeavesBeside(u, e, GAME) && !Strands(u, e, GAME)) {
      SeatsMayBeOverlooked();
      ClientsSeeWhoIsThere(v, GoneWorld(), GAME, NEW);
      assert false;
    }
  }
}
