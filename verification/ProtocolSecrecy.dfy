/**
 * What a player can learn of the opponent's locked-in throw from everything the server ever sends: nothing while the
 * round is ACTIVE, unless a connection takes a seat in which another live connection of the same player still sits.
 */
module ProtocolSecrecy {
  import opened Wrappers
  import opened Timestamps
  import opened Rules
  import opened Store
  import opened Registry
  import opened Snapshots
  import opened Protocol
  import opened ProtocolDoes
  import opened ProtocolLocks
  import opened ProtocolInvariant
  import opened ProtocolRely
  import opened ProtocolBody
  import opened ProtocolNext
  import opened ProtocolSafety
  import opened ProtocolRounds
  import opened ProtocolAlike
  import opened ProtocolAlikeSteps

  // ----- Views -----

  /** A player always sees their own throw, and the opponent's exactly when the game is not ACTIVE. */
  lemma WhoSeesWhat(v: GameView, g: GameId, seat: Seat, viewer: Seat)
    requires seat in v.names && v.row.PlayerOf(seat).Some?
    ensures match v.For(g, viewer).Of(seat)
      case Some(view) =>
        && view.lockedIn == (v.row.state.MoveOf(seat) != Pending)
        && view.move == (if view.lockedIn && (viewer == seat || v.row.state.status != Active)
                         then Some(v.row.state.MoveOf(seat)) else None)
      case None => false
  {
  }

  function WithThrow(v: GameView, owner: Seat, m: Move): GameView {
    v.(row := v.row.(state := WithMove(v.row.state, owner, m)))
  }

  /** Two games that differ in a locked-in throw look the same to the opponent exactly while they are ACTIVE. */
  lemma RevealedWhenOver(v: GameView, g: GameId, m: Move, m': Move, owner: Seat)
    requires owner in v.names && v.row.PlayerOf(owner).Some? && m != m' && m != Pending && m' != Pending
    ensures
      WithThrow(v, owner, m).For(g, owner.Other()) == WithThrow(v, owner, m').For(g, owner.Other())
      <==> v.row.state.status == Active
  {
  }

  /** What a client makes of a message: of a snapshot it gets the payload only. */
  datatype Heard = HeardState(snapshot: Snapshot) | HeardConnected(rid: RequestId, snapshot: Snapshot) | Heard(msg: Msg)

  function HeardOf(m: Msg): Heard {
    match m
    case StateIs(s) => HeardState(s.Payload())
    case Direct(rid, OkConnected(s)) => HeardConnected(rid, s.Payload())
    case _ => Heard(m)
  }

  function Hears(log: seq<Msg>): seq<Heard> {
    if log == [] then [] else Hears(log[..|log| - 1]) + [HeardOf(log[|log| - 1])]
  }

  /** Message m, if it is a snapshot of the compared game, is for the opponent of the owner. */
  predicate ForOpponent(m: Msg, x: Secret) {
    match SnapOf(m)
    case Some(s) => s.game == x.game ==> s.you == x.owner.Other()
    case None => true
  }

  lemma OneHeard(m: Msg, m': Msg, x: Secret)
    requires AlikeMsgs(m, m', x) && ForOpponent(m, x)
    ensures HeardOf(m) == HeardOf(m')
  {
  }

  lemma {:induction false} AllHeard(log: seq<Msg>, log': seq<Msg>, x: Secret)
    requires AlikeLogs(log, log', x) && forall m :: m in log ==> ForOpponent(m, x)
    ensures Hears(log) == Hears(log')
  {
    hide AlikeMsgs, ForOpponent, HeardOf;
    if log != [] {
      var last := |log| - 1;
      OneHeard(log[last], log'[last], x);
      AllHeard(log[..last], log'[..last], x);
    }
  }

  // ----- Two runs -----

  /** Two runs side by side, in which whatever `good` says holds of the steps of the first. */
  ghost predicate SideBySide(run: seq<World>, events: seq<Event>, run': seq<World>, events': seq<Event>, x: Secret,
                             good: (World, Event) -> bool)
  {
    && Follows(run, events) && Follows(run', events') && |events'| == |events|
    && (forall k :: 0 <= k < |events| ==> good(run[k], events[k]) && AlikeEvents(run[k], events[k], events'[k], x))
    && (forall k :: 0 <= k < |run| ==> Hidden(run[k].sh, run'[k].sh, x.game))
  }

  /**
   * Worlds w and w' are reached from v and v' by two runs that differ at most in which throws the owner locks in, and
   * in which the round is ACTIVE whenever the states of the game differ.
   */
  ghost predicate Abreast(v: World, v': World, w: World, w': World, x: Secret, good: (World, Event) -> bool) {
    exists run, events, run', events' ::
      && SideBySide(run, events, run', events', x, good)
      && run[0] == v && run'[0] == v' && run[|events|] == w && run'[|events|] == w'
  }

  lemma InitAlike(w: World, w': World, x: Secret)
    requires Init(w) && Init(w') && AlikeShared(w.sh, w'.sh, x)
    ensures AlikeWorlds(w, w', x)
  {
    hide AlikeShared;
  }

  /** The two servers differ in nothing else, at any time. */
  lemma RunsAlike(v: World, v': World, w: World, w': World, x: Secret, good: (World, Event) -> bool)
    requires Init(v) && Init(v') && AlikeShared(v.sh, v'.sh, x) && Abreast(v, v', w, w', x, good)
    ensures AlikeWorlds(w, w', x) && LeadsBy(v, w, good)
  {
    hide Init, Inv, Enabled, Step, AlikeShared, AlikeWorlds, AlikeEvents, Hidden;
    var run, events, run', events' :| SideBySide(run, events, run', events', x, good)
      && run[0] == v && run'[0] == v' && run[|events|] == w && run'[|events|] == w';
    InitInv(v);
    InitInv(v');
    InitAlike(v, v', x);
    var k := 0;
    while k < |events|
      invariant 0 <= k <= |events| && Inv(run[k]) && Inv(run'[k]) && AlikeWorlds(run[k], run'[k], x)
    {
      hide Init, Inv, Enabled, Step, AlikeShared, AlikeWorlds, AlikeEvents, Hidden;
      assert Enabled(run[k], events[k]) && run[k + 1] == Step(run[k], events[k]);
      assert Enabled(run'[k], events'[k]) && run'[k + 1] == Step(run'[k], events'[k]);
      StepInv(run[k], events[k]);
      StepInv(run'[k], events'[k]);
      StepAlike(run[k], run'[k], events[k], events'[k], x);
      k := k + 1;
    }
  }

  // ----- Whose rendering a connection gets -----

  /** Connection d is attached to the compared game and can still be sent something. */
  predicate Attending(sh: Shared, d: ConnId, x: Secret) {
    d in sh.reg.Attached(x.game) && !sh.Closing(d)
  }

  /** Whatever the holder of the compared game's lock is about to send to d is for the opponent. */
  predicate TurnedIn(sh: Shared, t: Tid, i: InPc, d: ConnId, x: Secret) {
    match i
    case ConnView(seat, _, _, _, was) =>
      if t == Reader(d) then seat == x.owner.Other() else !was && Attending(sh, d, x) ==> seat == x.owner
    case ConnList(seat, _, _) => t != Reader(d) && Attending(sh, d, x) ==> seat == x.owner
    case Sends(todo, msgs, seats, _, k) =>
      && (d in todo && !sh.Closing(d) ==> forall m :: m in msgs ==> ForOpponent(Rendered(m, seats, d), x))
      && (match k
          case ThenConnList(seat, _, _) => t != Reader(d) && Attending(sh, d, x) ==> seat == x.owner
          case _ => true)
    case _ => true
  }

  predicate TurnedLog(sh: Shared, d: ConnId, x: Secret) {
    forall m :: m in sh.Log(d) ==> ForOpponent(m, x)
  }

  ghost predicate TurnedInside(w: World, d: ConnId, x: Secret) {
    forall t :: IsInside(w, t, x.game) ==> TurnedIn(w.sh, t, w.Phase(t).Doing(), d, x)
  }

  /** Everything d has been sent of the compared game, and everything it is about to be sent, is for the opponent. */
  ghost predicate Turned(w: World, d: ConnId, x: Secret) {
    TurnedLog(w.sh, d, x) && w.sh.Place(d) != At(x.game, x.owner) && TurnedInside(w, d, x)
  }

  /** A connection takes a seat in which another one, d, sits that is still live. */
  ghost predicate SeatsBeside(w: World, e: Event, g: GameId, seat: Seat, d: ConnId) {
    match Does(w, e)
    case Sit(c, h, s) =>
      h == g && s == seat && c != d && !w.sh.Place(c).In(g) && w.sh.Place(d) == At(g, seat) && !w.sh.Closing(d)
    case _ => false
  }

  /** Connection d does not take the owner's seat, and no other connection the opponent's beside it. */
  ghost predicate Fair(w: World, e: Event, d: ConnId, x: Secret) {
    Does(w, e) != Sit(d, x.game, x.owner) && !SeatsBeside(w, e, x.game, x.owner.Other(), d)
  }

  // ----- What is sent -----

  lemma SitsThere(sh: Shared, c: ConnId, g: GameId, seat: Seat)
    ensures Do(sh, Sit(c, g, seat)).Place(c) == At(g, seat) || Do(sh, Sit(c, g, seat)).Place(c) == sh.Place(c)
  {
  }

  lemma StaysElsewhere(sh: Shared, e: Effect, d: ConnId, x: Secret)
    requires sh.Place(d) != At(x.game, x.owner) && e != Sit(d, x.game, x.owner)
    ensures Do(sh, e).Place(d) != At(x.game, x.owner)
  {
    hide Do, Shared.Place;
    DoPlaces(sh, e, d);
    match e
    case Sit(c, g, seat) => SitsThere(sh, c, g, seat);
    case _ =>
  }

  lemma DoTurned(sh: Shared, e: Effect, d: ConnId, x: Secret)
    requires TurnedLog(sh, d, x)
    requires match e case Say(c, m) => c == d && !sh.Closing(d) ==> ForOpponent(m, x) case _ => true
    ensures TurnedLog(Do(sh, e), d, x)
  {
    hide ForOpponent, Bind, Forget, Attach, Detach, DetachSet, AddConn, TouchPlayer, DeletePlayer, DeleteGame, SaveGame,
        CreateGame;
  }

  /** A loop under a lock sends what it says it will; snapshots of other games do not matter. */
  lemma LoopSays(sh: Shared, t: Tid, g: GameId, todo: seq<ConnId>, msgs: seq<Msg>, seats: map<ConnId, Seat>, next: nat,
                 k: Then, d: ConnId, x: Secret)
    requires Local(sh, t, g, Sends(todo, msgs, seats, next, k)) && todo != [] && todo[0] == d && !sh.Closing(d)
    requires g == x.game ==> TurnedIn(sh, t, Sends(todo, msgs, seats, next, k), d, x)
    ensures ForOpponent(Rendered(msgs[next], seats, d), x)
  {
    hide Local, RowIs;
    SendsOf(sh, t, g, todo, msgs, seats, next, k);
    RenderedSame(msgs[next], seats, d);
  }

  lemma BodySays(sh: Shared, t: Tid, g: GameId, i: InPc, ch: Choice, d: ConnId, x: Secret)
    requires Local(sh, t, g, i) && (g == x.game ==> TurnedIn(sh, t, i, d, x))
    ensures match BodyDoes(sh, t, g, i, ch)
      case Say(c, m) => c == d && !sh.Closing(d) ==> ForOpponent(m, x)
      case _ => true
  {
    hide Local, TurnedIn, ForOpponent, Rendered;
    match i
    case Sends(todo, msgs, seats, next, k) =>
      if todo != [] && todo[0] == d && next < |msgs| && !sh.Closing(d) {
        LoopSays(sh, t, g, todo, msgs, seats, next, k, d, x);
      }
    case _ =>
  }

  lemma NotSnap(m: Msg, x: Secret)
    requires SnapOf(m).None?
    ensures ForOpponent(m, x)
  {
  }

  lemma StepSays(w: World, e: Event, d: ConnId, x: Secret)
    requires Inv(w) && Enabled(w, e) && TurnedInside(w, d, x)
    ensures match Does(w, e)
      case Say(c, m) => c == d && !w.sh.Closing(d) ==> ForOpponent(m, x)
      case _ => true
  {
    hide Inv, Local, TurnedIn, ForOpponent, FreeDoes, BodyDoes, CanPass, ListsConns, Body, SnapOf;
    match e
    case Go(t, ch) =>
      match w.Phase(t) {
        case Out(o) =>
          FreeSaysNoSnap(w.sh, t, w.Served(t), o, ch);
          match FreeDoes(w.sh, t, w.Served(t), o, ch) {
            case Say(_, m) => NotSnap(m, x);
            case _ =>
          }
        case Inside(g, _, i) =>
          BodyOf(w, t, ch);
          assert IsInside(w, t, g);
          BodySays(w.sh, t, g, i, ch, d, x);
        case _ =>
      }
    case _ =>
  }

  // ----- What is about to be sent -----

  /** Goroutine t attaches its connection in the opponent's seat if that is d, and not beside d otherwise. */
  predicate FairSeat(sh: Shared, t: Tid, seat: Seat, d: ConnId, x: Secret) {
    if t == Reader(d) then seat == x.owner.Other()
    else
      sh.Place(t.Mine()).In(x.game) || sh.Place(d) != At(x.game, x.owner.Other()) || sh.Closing(d) || seat == x.owner
  }

  /** Whoever takes a seat tells d about it only if it is the owner's. */
  lemma SeatingTurned(sh: Shared, t: Tid, sv: Serving, seat: Seat, row: Game, v: nat, joined: bool, ch: Choice,
      d: ConnId,
                      x: Secret)
    requires Global(sh) && t.Reader? && sh.Place(d) != At(x.game, x.owner)
    requires FairSeat(sh, t, seat, d, x)
    ensures
      var to := Body(sh, t, x.game, sv, ConnAttach(seat, row, v, joined), ch);
      TurnedIn(to.sh, t, to.pc, d, x)
  {
    hide DbOk, SeatsHeld, LogsOk, HistoriesOk;
    assert t == Reader(t.Mine());
    assert d in sh.reg.Attached(x.game) ==> sh.Place(d).In(x.game);
  }

  lemma ViewTurned(sh: Shared, t: Tid, sv: Serving, seat: Seat, row: Game, v: nat, joined: bool, was: bool, ch: Choice,
                   d: ConnId, x: Secret)
    requires t.Reader? && TurnedIn(sh, t, ConnView(seat, row, v, joined, was), d, x)
    ensures
      var to := Body(sh, t, x.game, sv, ConnView(seat, row, v, joined, was), ch);
      TurnedIn(to.sh, t, to.pc, d, x)
  {
    hide Shared.View;
  }

  /** A listing for a connecting player renders its snapshot for the other seat. */
  lemma ConnListTurned(sh: Shared, t: Tid, sv: Serving, seat: Seat, view: GameView, v: nat, ch: Choice, d: ConnId,
      x: Secret)
    requires t.Reader? && TurnedIn(sh, t, ConnList(seat, view, v), d, x)
    requires Lists(ch.conns, sh.reg.Attached(x.game) - {t.Mine()})
    ensures
      var to := Body(sh, t, x.game, sv, ConnList(seat, view, v), ch);
      TurnedIn(to.sh, t, to.pc, d, x)
  {
  }

  /** A broadcast renders its snapshots for the seats of their receivers. */
  lemma CastTurned(sh: Shared, t: Tid, conns: seq<ConnId>, msgs: seq<Msg>, o: OutPc, sh': Shared, d: ConnId, x: Secret)
    requires Global(sh) && Lists(conns, sh.reg.Attached(x.game)) && sh.Place(d) != At(x.game, x.owner)
    requires forall m :: m in msgs ==> !m.Direct?
    ensures TurnedIn(sh', t, SendAll(conns, msgs, sh.SeatsIn(x.game), ThenLeave(o)), d, x)
  {
    hide DbOk, SeatsHeld, LogsOk, HistoriesOk;
    assert d in sh.reg.Attached(x.game) ==> sh.Place(d).In(x.game);
  }

  /** Every other step sends no snapshots. */
  lemma OtherTurned(sh: Shared, t: Tid, sv: Serving, i: InPc, ch: Choice, d: ConnId, x: Secret)
    requires !i.Sends? && !i.ConnAttach? && !i.ConnView? && !i.ConnList? && !i.CastList? && !i.CloseList?
        && !i.LeaveLock?
    requires match i case Tell(e, _, _) => SnapOf(e).None? case _ => true
    ensures
      var to := Body(sh, t, x.game, sv, i, ch);
      TurnedIn(to.sh, t, to.pc, d, x)
  {
    hide SaveGame, Load, JoinGame, Apply, After, Attach, Detach, DetachSet, DeleteGame, Before, Resumed, AttemptOf,
        Shared.View;
  }

  /** What is left of a loop, and what follows it. */
  lemma LoopTurned(sh: Shared, t: Tid, sv: Serving, todo: seq<ConnId>, msgs: seq<Msg>, seats: map<ConnId, Seat>,
                   next: nat, k: Then, ch: Choice, d: ConnId, x: Secret)
    requires TurnedIn(sh, t, Sends(todo, msgs, seats, next, k), d, x)
    ensures
      var to := Body(sh, t, x.game, sv, Sends(todo, msgs, seats, next, k), ch);
      TurnedIn(to.sh, t, to.pc, d, x)
  {
    hide ForOpponent, Rendered;
  }

  lemma TellsNoSnap(sh: Shared, t: Tid, g: GameId, i: InPc)
    requires Local(sh, t, g, i)
    ensures match i case Tell(e, _, _) => SnapOf(e).None? case _ => true
  {
    hide StartOk, CopyOk, MsgsOk, ThenOk;
  }

  lemma BodyTurned(sh: Shared, t: Tid, sv: Serving, i: InPc, ch: Choice, d: ConnId, x: Secret)
    requires Global(sh) && Local(sh, t, x.game, i) && ListsConns(sh, t, x.game, i, ch) && !i.LeaveLock?
    requires sh.Place(d) != At(x.game, x.owner) && TurnedIn(sh, t, i, d, x)
    requires match i
      case ConnAttach(seat, _, _, _) => FairSeat(sh, t, seat, d, x)
      case _ => true
    ensures
      var to := Body(sh, t, x.game, sv, i, ch);
      TurnedIn(to.sh, t, to.pc, d, x)
  {
    hide Global, Local, Body, TurnedIn, Lists;
    ReaderOnly(sh, t, x.game, i);
    match i
    case ConnAttach(seat, row, v, joined) => SeatingTurned(sh, t, sv, seat, row, v, joined, ch, d, x);
    case ConnView(seat, row, v, joined, was) => ViewTurned(sh, t, sv, seat, row, v, joined, was, ch, d, x);
    case ConnList(seat, view, v) => ConnListTurned(sh, t, sv, seat, view, v, ch, d, x);
    case CastList(view, v) => CastListTurned(sh, t, sv, view, v, ch, d, x);
    case CloseList(reason, side, row, v, viewed, o) =>
      CloseListTurned(sh, t, sv, reason, side, row, v, viewed, o, ch, d, x);
    case Sends(todo, msgs, seats, next, k) => LoopTurned(sh, t, sv, todo, msgs, seats, next, k, ch, d, x);
    case _ =>
      TellsNoSnap(sh, t, x.game, i);
      OtherTurned(sh, t, sv, i, ch, d, x);
  }

  lemma CastListTurned(sh: Shared, t: Tid, sv: Serving, view: GameView, v: nat, ch: Choice, d: ConnId, x: Secret)
    requires Global(sh) && sh.Place(d) != At(x.game, x.owner) && Lists(ch.conns, sh.reg.Attached(x.game))
    ensures
      var to := Body(sh, t, x.game, sv, CastList(view, v), ch);
      TurnedIn(to.sh, t, to.pc, d, x)
  {
    hide Global, TurnedIn, Lists, Shared.SeatsIn;
    CastTurned(sh, t, ch.conns, [StateIs(Snap(x.game, v, view, Host))], Idle, sh.(stale := sh.stale - {x.game}), d, x);
  }

  lemma CloseListTurned(sh: Shared, t: Tid, sv: Serving, reason: Reason, side: Seat, row: Game, v: nat,
                        viewed: Option<GameView>, o: OutPc, ch: Choice, d: ConnId, x: Secret)
    requires Global(sh) && sh.Place(d) != At(x.game, x.owner) && Lists(ch.conns, sh.reg.Attached(x.game))
    ensures
      var to := Body(sh, t, x.game, sv, CloseList(reason, side, row, v, viewed, o), ch);
      TurnedIn(to.sh, t, to.pc, d, x)
  {
    hide Global, TurnedIn, Lists, DetachSet, Shared.SeatsIn;
    CastTurned(sh, t, ch.conns, [GameOver(reason, side)] + Final(x.game, v, viewed), o,
        sh.(reg := DetachSet(sh.reg, x.game, sh.reg.Attached(x.game))), d, x);
  }

  // ----- Every step -----

  /** The step of somebody else leaves what a goroutine is about to send as it was. */
  lemma TurnedStays(sh: Shared, sh': Shared, t: Tid, i: InPc, d: ConnId, x: Secret)
    requires Attending(sh', d, x) ==> Attending(sh, d, x)
    requires sh.Closing(d) ==> sh'.Closing(d)
    requires TurnedIn(sh, t, i, d, x)
    ensures TurnedIn(sh', t, i, d, x)
  {
    hide ForOpponent, Attending, Rendered;
  }

  lemma OtherStays(w: World, e: Event, s: Tid, d: ConnId, x: Secret)
    requires Inv(w) && Enabled(w, e) && TurnedInside(w, d, x) && IsInside(w, s, x.game)
    requires Holding(w, e) != Some(x.game)
    ensures TurnedIn(Step(w, e).sh, s, w.Phase(s).Doing(), d, x)
  {
    hide Inv, Enabled, Step, TurnedIn, PlayersKept, RowsKept, RegKept, StaleKept;
    AttachedKept(w, e, x.game);
    StepRely(w, e);
    TurnedStays(w.sh, Step(w, e).sh, s, w.Phase(s).Doing(), d, x);
  }

  lemma StartTurned(sh: Shared, t: Tid, i: InPc, d: ConnId, x: Secret)
    requires Starting(i)
    ensures TurnedIn(sh, t, i, d, x)
  {
  }

  /** What a goroutine is about to send after a step of its own. */
  lemma OwnTurned(w: World, t: Tid, ch: Choice, d: ConnId, x: Secret)
    requires Inv(w) && CanRun(w, t, ch) && TurnedInside(w, d, x) && w.sh.Place(d) != At(x.game, x.owner)
    requires Fair(w, Go(t, ch), d, x) && IsInside(RunThread(w, t, ch), t, x.game)
    ensures TurnedIn(RunThread(w, t, ch).sh, t, RunThread(w, t, ch).Phase(t).Doing(), d, x)
  {
    hide LockInv, Justified, Global, Free, Body, TurnedIn, CanPass, ListsConns, StartOk, InOk, OutOk, Local, FreeDoes;
    PhaseOf(w, t);
    match w.Phase(t)
    case Waiting(g, _, i) =>
      StartsPlain(w.sh, t, g, i);
      StartTurned(w.sh, t, i, d, x);
    case Inside(g, _, i) =>
      BodyOf(w, t, ch);
      assert IsInside(w, t, g);
      BodyTurned(w.sh, t, w.Served(t), i, ch, d, x);
    case _ =>
  }

  lemma StepTurnedInside(w: World, e: Event, d: ConnId, x: Secret)
    requires Inv(w) && Enabled(w, e) && TurnedInside(w, d, x) && w.sh.Place(d) != At(x.game, x.owner)
        && Fair(w, e, d, x)
    ensures TurnedInside(Step(w, e), d, x)
  {
    hide Inv, TurnedIn, RunThread, Environment, CanPass, ListsConns, Fair;
    match e
    case Go(t, ch) =>
      RunThreads(w, t, ch);
      forall s | IsInside(Step(w, e), s, x.game) ensures TurnedIn(Step(w, e).sh, s, Step(w, e).Phase(s).Doing(), d, x) {
        if s == t {
          OwnTurned(w, t, ch, d, x);
        } else {
          assert IsInside(w, s, x.game);
          if IsInside(w, t, x.game) {
            OneInside(w, s, t, x.game);
          }
          OtherStays(w, e, s, d, x);
        }
      }
    case _ =>
      EnvironmentOf(w, e);
      SameInside(w, Step(w, e));
      forall s | IsInside(Step(w, e), s, x.game) ensures TurnedIn(Step(w, e).sh, s, Step(w, e).Phase(s).Doing(), d, x) {
        assert IsInside(w, s, x.game);
        OtherStays(w, e, s, d, x);
      }
  }

  lemma StepTurned(w: World, e: Event, d: ConnId, x: Secret)
    requires Inv(w) && Enabled(w, e) && Turned(w, d, x) && Fair(w, e, d, x)
    ensures Turned(Step(w, e), d, x)
  {
    hide Inv, Enabled, Step, Does, Do, TurnedLog, TurnedInside, SeatsBeside, ForOpponent, Shared.Place;
    StepDo(w, e);
    StepSays(w, e, d, x);
    DoTurned(w.sh, Does(w, e), d, x);
    StaysElsewhere(w.sh, Does(w, e), d, x);
    StepTurnedInside(w, e, d, x);
  }

  lemma InitTurned(w: World, d: ConnId, x: Secret)
    requires Init(w)
    ensures Turned(w, d, x)
  {
  }

  /** Along fair steps everything is for the opponent. */
  lemma FairTurns(v: World, w: World, d: ConnId, x: Secret)
    requires Init(v) && LeadsBy(v, w, (u, e) => Fair(u, e, d, x))
    ensures Turned(w, d, x)
  {
    hide *;
    var good := (u, e) => Fair(u, e, d, x);
    InitInv(v);
    InitTurned(v, d, x);
    forall u, e | Inv(u) && Turned(u, d, x) && Enabled(u, e) && good(u, e) ensures Turned(Step(u, e), d, x) {
      StepTurned(u, e, d, x);
    }
    KeptBy(v, w, good, u => Turned(u, d, x));
  }

  // ----- What the opponent learns -----

  /** Connection d has been sent the same on both sides, as far as its client can tell, and is closed alike. */
  predicate SameTo(sh: Shared, sh': Shared, d: ConnId) {
    match Get(sh.chan, d)
    case Some(ch) =>
      (match Get(sh'.chan, d)
       case Some(ch') => Hears(ch'.log) == Hears(ch.log) && ch' == ch.(log := ch'.log)
       case None => false)
    case None => d !in sh'.chan
  }

  /**
   * A locked-in throw is secret: two runs that differ only in which throws a player locks in, and in which the round
   * is ACTIVE whenever the game's states differ, send every connection that never takes that player's seat exactly
   * the same, and close it alike, whatever the interleaving. The connection must not still be live in its seat when
   * another one takes that seat.
   */
  lemma OpponentLearnsNothing(v: World, v': World, w: World, w': World, d: ConnId, x: Secret)
    requires Init(v) && Init(v') && AlikeShared(v.sh, v'.sh, x)
    requires Abreast(v, v', w, w', x, (u, e) => Fair(u, e, d, x))
    ensures SameTo(w.sh, w'.sh, d)
  {
    hide *;
    RunsAlike(v, v', w, w', x, (u, e) => Fair(u, e, d, x));
    FairTurns(v, w, d, x);
    SameHeard(w, w', d, x);
  }

  lemma SameHeard(w: World, w': World, d: ConnId, x: Secret)
    requires AlikeWorlds(w, w', x) && Turned(w, d, x)
    ensures SameTo(w.sh, w'.sh, d)
  {
    hide AlikeThread, AlikeDbs, AlikeSaves, TurnedIn, TurnedInside, ForOpponent, AlikeLogs, Hears;
    if d in w.sh.chan {
      AllHeard(w.sh.chan[d].log, w'.sh.chan[d].log, x);
    }
  }

  // ----- Who is sent another seat's rendering -----

  predicate Listing(i: InPc) {
    i.ConnList? || i.CastList? || i.CloseList?
  }

  /** Connection d is about to be sent a snapshot that is rendered for another seat than the one it sits in. */
  predicate Misrenders(sh: Shared, i: InPc, d: ConnId) {
    match i
    case Sends(todo, msgs, seats, _, _) =>
      d in todo && exists m :: m in msgs && !RenderedFor(Rendered(m, seats, d), sh.Place(d))
    case _ => false
  }

  predicate RenderedFor(m: Msg, place: Place) {
    match SnapOf(m)
    case Some(s) => (match place case At(_, seat) => s.you == seat case Nowhere => false)
    case None => true
  }

  /** Connection d is to be told that another one has taken the very seat it sits in itself. */
  predicate SharesSeat(sh: Shared, g: GameId, t: Tid, i: InPc, d: ConnId) {
    match i
    case ConnList(seat, _, _) => t != Reader(d) && sh.Place(d) == At(g, seat)
    case _ => false
  }

  /**
   * Who is sent a snapshot that was rendered for another seat: of all connections that a listing is about to send a
   * snapshot to, exactly those that sit in the seat whose player is just connecting.
   */
  lemma WrongSeats(w: World, t: Tid, ch: Choice, d: ConnId)
    requires Reached(w) && Enabled(w, Go(t, ch)) && w.Phase(t).Inside? && Listing(w.Phase(t).Doing())
    ensures Misrenders(w.sh, Step(w, Go(t, ch)).Phase(t).Doing(), d)
      <==> SharesSeat(w.sh, w.Phase(t).InGame(), t, w.Phase(t).Doing(), d)
  {
    hide Reached, LockInv, Justified, Global, Body, Free, Misrenders, SharesSeat, ListsGames, ListsConns, Local;
    Always(w);
    BodyOf(w, t, ch);
    ReaderOnly(w.sh, t, w.Phase(t).InGame(), w.Phase(t).Doing());
    ListingSends(w.sh, t, w.Phase(t).InGame(), w.Served(t), w.Phase(t).Doing(), ch, d);
  }

  lemma ListingSends(sh: Shared, t: Tid, g: GameId, sv: Serving, i: InPc, ch: Choice, d: ConnId)
    requires Global(sh) && Listing(i) && ListsConns(sh, t, g, i, ch) && (i.ConnList? ==> t.Reader?)
    ensures Misrenders(sh, Body(sh, t, g, sv, i, ch).pc, d) <==> SharesSeat(sh, g, t, i, d)
  {
    hide DbOk, SeatsHeld, LogsOk, HistoriesOk, DetachSet, Misrenders;
    assert d in sh.reg.Attached(g) <==> sh.Place(d).In(g);
    match i
    case ConnList(seat, view, v) => ConnListSends(sh, t, g, seat, view, v, ch, d);
    case CastList(view, v) => CastSends(sh, g, ch.conns, [StateIs(Snap(g, v, view, Host))], Idle, d);
    case CloseList(reason, side, row, v, viewed, o) =>
      CastSends(sh, g, ch.conns, [GameOver(reason, side)] + Final(g, v, viewed), o, d);
  }

  lemma ConnListSends(sh: Shared, t: Tid, g: GameId, seat: Seat, view: GameView, v: nat, ch: Choice, d: ConnId)
    requires Lists(ch.conns, sh.reg.Attached(g) - {t.Mine()}) && t.Reader?
    requires d in sh.reg.Attached(g) <==> sh.Place(d).In(g)
    ensures Misrenders(sh,
        SendAll(ch.conns, [OpponentConnected(seat), StateIs(Snap(g, v, view, seat.Other()))], map[], ThenLeave(Idle)),
            d)
      <==> (t != Reader(d) && sh.Place(d) == At(g, seat))
  {
    assert t == Reader(t.Mine());
    var msgs := [OpponentConnected(seat), StateIs(Snap(g, v, view, seat.Other()))];
    assert msgs[1] in msgs;
  }

  lemma CastSends(sh: Shared, g: GameId, conns: seq<ConnId>, msgs: seq<Msg>, o: OutPc, d: ConnId)
    requires Lists(conns, sh.reg.Attached(g)) && (forall m :: m in msgs ==> !m.Direct?)
    requires d in sh.reg.Attached(g) <==> sh.Place(d).In(g)
    ensures !Misrenders(sh, SendAll(conns, msgs, sh.SeatsIn(g), ThenLeave(o)), d)
  {
  }
}
