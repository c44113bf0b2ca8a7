/**
 * The last snapshot a connection was sent, of whichever game: it is of the game the connection is attached to, unless
 * the connection joined that game while it was still to be sent a snapshot of another.
 */
module ProtocolLast {
  import opened Wrappers
  import opened Timestamps
  import opened Rules
  import opened Store
  import opened Registry
  import opened Protocol
  import opened ProtocolReached
  import opened ProtocolDoes
  import opened ProtocolLocks
  import opened ProtocolInvariant
  import opened ProtocolRely
  import opened ProtocolEffects
  import opened ProtocolStoreEffects
  import opened ProtocolBody
  import opened ProtocolNext
  import opened ProtocolSafety
  import opened ProtocolRounds
  import opened ProtocolTheorems

  function LastSnap(log: seq<Msg>): Option<Snap> {
    if log == [] then None
    else if SnapOf(log[|log| - 1]).Some? then SnapOf(log[|log| - 1])
    else LastSnap(log[..|log| - 1])
  }

  predicate IsOf(snap: Option<Snap>, g: GameId) {
    match snap
    case Some(s) => s.game == g
    case None => false
  }

  lemma {:induction false} LastOfAll(log: seq<Msg>, g: GameId)
    requires LastAbout(log, g).Some?
    ensures LastSnap(log).Some? && (IsOf(LastSnap(log), g) ==> LastSnap(log) == LastAbout(log, g))
  {
    if !IsOf(SnapOf(log[|log| - 1]), g) {
      LastOfAll(log[..|log| - 1], g);
    }
  }

  lemma LastAppended(log: seq<Msg>, m: Msg)
    ensures LastSnap(log + [m]) == if SnapOf(m).Some? then SnapOf(m) else LastSnap(log)
  {
    assert (log + [m])[..|log|] == log;
  }

  function LastTo(sh: Shared, c: ConnId): Option<Snap> {
    LastSnap(sh.Log(c))
  }

  /** Only a snapshot changes what a connection was sent last, and only if there is room for it. */
  lemma DoLast(sh: Shared, e: Effect, c: ConnId)
    requires match e case Meet(d) => d !in sh.chan case _ => true
    ensures match e
      case Say(d, m) =>
        LastTo(Do(sh, e), c) == (if d == c && HasRoom(sh, c) && SnapOf(m).Some? then SnapOf(m) else LastTo(sh, c))
      case _ => LastTo(Do(sh, e), c) == LastTo(sh, c)
  {
    hide LastSnap, Bind, Forget, Attach, Detach, DetachSet, AddConn, TouchPlayer, DeletePlayer, DeleteGame, SaveGame,
        CreateGame;
    match e
    case Say(d, m) => LastAppended(sh.Log(c), m);
    case _ =>
  }

  // ----- One step -----

  /** The last snapshot connection c was sent is of another game than the one it is attached to. */
  predicate Misled(sh: Shared, c: ConnId) {
    match sh.Place(c)
    case At(g, _) => LastTo(sh, c).Some? && !IsOf(LastTo(sh, c), g)
    case Nowhere => false
  }

  /** Goroutine t is about to send connection c a snapshot of game g. */
  predicate Tells(w: World, t: Tid, g: GameId, c: ConnId) {
    IsInside(w, t, g) && match w.Phase(t).Doing()
      case Sends(todo, msgs, _, next, _) => todo != [] && todo[0] == c && next < |msgs| && SnapOf(msgs[next]).Some?
      case _ => false
  }

  lemma TellsSays(w: World, t: Tid, ch: Choice, g: GameId, c: ConnId)
    requires Inv(w) && Tells(w, t, g, c)
    ensures match Does(w, Go(t, ch)) case Say(d, m) => d == c && IsOf(SnapOf(m), g) case _ => false
  {
    hide LockInv, Global, Justified, StartOk, CopyOk, ThenOk, RowIs, FreeDoes, InOk, OutOk;
    BodyOf(w, t, ch);
  }

  /** Sending a snapshot of game g misleads its receiver exactly if it is attached to another game at that moment. */
  lemma SendingMisleads(w: World, t: Tid, ch: Choice, g: GameId, c: ConnId)
    requires Reached(w) && Enabled(w, Go(t, ch)) && Tells(w, t, g, c) && HasRoom(w.sh, c)
    ensures Misled(Step(w, Go(t, ch)).sh, c) <==> w.sh.Place(c).At? && !w.sh.Place(c).In(g)
  {
    hide Reached, Inv, Step, Does, Enabled, Tells, HasRoom, LastTo, Send;
    Always(w);
    StepDo(w, Go(t, ch));
    TellsSays(w, t, ch, g, c);
    DoLast(w.sh, Does(w, Go(t, ch)), c);
  }

  // ----- Runs -----

  /** Unless a snapshot of game g failed, the last snapshot an attached live connection was sent is of game g. */
  ghost predicate Sharp(sh: Shared, g: GameId, c: ConnId) {
    c in sh.reg.Attached(g) && !sh.Closing(c) && g !in sh.stale ==> IsOf(LastTo(sh, c), g)
  }

  /** Connection c is among those that a loop still sends a snapshot to. */
  predicate Telling(i: InPc, c: ConnId) {
    match i
    case Sends(todo, msgs, _, _, _) => c in todo && CarriesSnap(msgs)
    case _ => false
  }

  /** Under the lock of game g, whoever a snapshot of it is still to be sent to is in it or nowhere. */
  ghost predicate SharpIn(sh: Shared, t: Tid, g: GameId, i: InPc, c: ConnId) {
    && (!Untold(t, i, c) ==> Sharp(sh, g, c))
    && (Telling(i, c) || (i.ConnView? && t == Reader(c)) ==> Here(sh, g, c))
  }

  ghost predicate AllSharp(w: World, c: ConnId) {
    && (forall g :: LockFree(w, g) ==> Sharp(w.sh, g, c))
    && (forall t, g :: IsInside(w, t, g) ==> SharpIn(w.sh, t, g, w.Phase(t).Doing(), c))
  }

  /** The reader of connection c is about to attach it. */
  predicate Joins(w: World, t: Tid, c: ConnId) {
    t == Reader(c) && w.Phase(t).Inside? && w.Phase(t).Doing().ConnAttach?
  }

  /** Connection c is attached to a game while the holder of another game's lock is still to send it a snapshot. */
  ghost predicate JoinsWhileTold(w: World, e: Event, c: ConnId) {
    match e
    case Go(t, _) =>
      Joins(w, t, c) && exists s, h :: IsInside(w, s, h) && h != w.Phase(t).InGame() && Telling(w.Phase(s).Doing(), c)
    case _ => false
  }

  // ----- Steps without the lock of the game -----

  /** What a step that does not hold the lock of game g leaves of connection c; `joins` if it attaches c elsewhere. */
  ghost predicate Elsewhere(sh: Shared, sh': Shared, g: GameId, c: ConnId, joins: bool) {
    && (c in sh'.reg.Attached(g) && !sh'.Closing(c) ==> c in sh.reg.Attached(g) && !sh.Closing(c))
    && (g in sh.stale ==> g in sh'.stale)
    && (c in sh.reg.Attached(g) ==> LastTo(sh', c) == LastTo(sh, c))
    && (Here(sh, g, c) && !joins ==> Here(sh', g, c))
  }

  lemma SharpStays(sh: Shared, sh': Shared, t: Tid, g: GameId, i: InPc, c: ConnId, joins: bool)
    requires Elsewhere(sh, sh', g, c, joins)
    ensures Sharp(sh, g, c) ==> Sharp(sh', g, c)
    ensures SharpIn(sh, t, g, i, c) && (joins ==> !Telling(i, c) && t != Reader(c)) ==> SharpIn(sh', t, g, i, c)
  {
    hide Untold, CarriesSnap, Here, LastTo;
  }

  lemma DoElsewhere(sh: Shared, who: Option<Tid>, lock: Option<GameId>, e: Effect, g: GameId, c: ConnId)
    requires Allowed(sh, who, lock, e) && Rely(sh, Do(sh, e), who, lock) && lock != Some(g)
    requires match e case Say(d, m) => d == c && SnapOf(m).Some? ==> c !in sh.reg.Attached(g) case _ => true
    ensures Elsewhere(sh, Do(sh, e), g, c, match e case Sit(d, _, _) => d == c case _ => false)
  {
    hide Do, PlayersKept, RowsKept, LastTo, SaveOk, MaySit, Sendable;
    DoLast(sh, e, c);
    DoPlaces(sh, e, c);
  }

  lemma SittingJoins(w: World, e: Event, c: ConnId)
    requires Inv(w) && Enabled(w, e)
    ensures match Does(w, e) case Sit(d, _, _) => d == c
        ==> (match e case Go(t, _) => Joins(w, t, c) case _ => false) case _ => true
  {
    hide LockInv, Global, Justified, FreeDoes, CanPass, ListsConns;
    StepAllowed(w, e);
    match e
    case Go(t, ch) =>
      match w.Phase(t) {
        case Out(o) => FreeSitsNot(w.sh, t, w.Served(t), o, ch);
        case _ =>
      }
    case _ =>
  }

  /** Snapshots of other games are sent to connections that are in those or nowhere. */
  lemma SayingElsewhere(w: World, e: Event, g: GameId, c: ConnId)
    requires Inv(w) && Enabled(w, e) && AllSharp(w, c) && Holding(w, e) != Some(g)
    ensures match Does(w, e)
      case Say(d, m) => d == c && SnapOf(m).Some? ==> c !in w.sh.reg.Attached(g)
      case _ => true
  {
    hide LockInv, Justified, DbOk, SeatsHeld, LogsOk, HistoriesOk, Sharp, Untold, CanPass, ListsConns;
    match e
    case Go(t, ch) =>
      match w.Phase(t) {
        case Inside(h, _, i) =>
          assert IsInside(w, t, h);
          SendsSnap(w.sh, t, h, i, ch, c);
          AttachedKnown(w.sh, g);
        case Out(o) => FreeSaysNoSnap(w.sh, t, w.Served(t), o, ch);
        case _ =>
      }
    case _ =>
  }

  lemma SendsSnap(sh: Shared, t: Tid, h: GameId, i: InPc, ch: Choice, c: ConnId)
    ensures match BodyDoes(sh, t, h, i, ch) case Say(d, m) => d == c && SnapOf(m).Some? ==> Telling(i, c) case _ => true
  {
    match i
    case Sends(todo, msgs, seats, next, _) =>
      if todo != [] && next < |msgs| {
        RenderedSame(msgs[next], seats, todo[0]);
      }
    case _ =>
  }

  lemma StepElsewhere(w: World, e: Event, g: GameId, c: ConnId)
    requires Inv(w) && Enabled(w, e) && AllSharp(w, c) && Holding(w, e) != Some(g)
    ensures Elsewhere(w.sh, Step(w, e).sh, g, c, match e case Go(t, _) => Joins(w, t, c) case _ => false)
  {
    hide Inv, Enabled, Does, Do, Step, AllSharp, Allowed, Rely, LastTo, Global;
    StepAllowed(w, e);
    StepDo(w, e);
    StepRely(w, e);
    SayingElsewhere(w, e, g, c);
    SittingJoins(w, e, c);
    DoElsewhere(w.sh, Mover(e), Holding(w, e), Does(w, e), g, c);
  }

  // ----- Under the game's own lock -----

  /** The last message of a loop of sends is its snapshot, if it has one. */
  lemma SendsSharp(sh: Shared, t: Tid, g: GameId, sv: Serving, todo: seq<ConnId>, msgs: seq<Msg>,
                   seats: map<ConnId, Seat>, next: nat, k: Then, c: ConnId)
    requires MsgsOk(sh, t, g, todo, msgs) && next < |msgs| && SharpIn(sh, t, g, Sends(todo, msgs, seats, next, k), c)
    ensures
      var to := SendNext(sh, todo, msgs, seats, next, k, sv);
      SharpIn(to.sh, t, g, to.pc, c)
  {
    hide RowIs, LastTo, Sharp, Here, Shared.Sent;
    if todo != [] {
      RenderedSame(msgs[next], seats, todo[0]);
      SendSharp(sh, todo[0], Rendered(msgs[next], seats, todo[0]), g, c);
    }
  }

  /** A snapshot of the game makes its receiver sharp, and anything else changes nothing. */
  lemma SendSharp(sh: Shared, d: ConnId, m: Msg, g: GameId, c: ConnId)
    ensures Here(sh, g, c) ==> Here(sh.Sent(d, m), g, c)
    ensures d != c || SnapOf(m).None? ==> (Sharp(sh, g, c) ==> Sharp(sh.Sent(d, m), g, c))
    ensures d in sh.chan && IsOf(SnapOf(m), g) && d == c ==> Sharp(sh.Sent(d, m), g, c)
  {
    hide LastSnap;
    LastAppended(sh.Log(d), m);
  }

  /** Whoever is about to be sent a snapshot is in the game or nowhere. */
  lemma TellingHere(sh: Shared, t: Tid, g: GameId, sv: Serving, i: InPc, ch: Choice, c: ConnId)
    requires Global(sh) && SharpIn(sh, t, g, i, c) && ListsConns(sh, t, g, i, ch)
    requires (i.ConnView? && t.Reader?) || i.ConnList? || i.Tell? || i.CastList? || i.CloseList?
    ensures var to := Body(sh, t, g, sv, i, ch); !to.pc.ConnView? && (Telling(to.pc, c) ==> Here(to.sh, g, c))
  {
    hide Shared.View, Shared.SeatsIn, DbOk, SeatsHeld, LogsOk, HistoriesOk, Untold, Sharp, DetachSet, CarriesSnap,
        Final;
    if c in sh.reg.Attached(g) {
      AttachedIsHere(sh, g, c);
    }
  }

  lemma AttachedIsHere(sh: Shared, g: GameId, c: ConnId)
    requires RegOk(sh) && c in sh.reg.Attached(g)
    ensures Here(sh, g, c) && Here(sh.(reg := DetachSet(sh.reg, g, sh.reg.Attached(g))), g, c)
  {
    assert c in sh.reg.link && (sh.reg.link[c].place.In(g) <==> c in sh.reg.Attached(g));
  }

  lemma NobodyTold(sh: Shared, t: Tid, g: GameId, sv: Serving, i: InPc, ch: Choice, c: ConnId)
    requires !i.ConnView? && !i.ConnList? && !i.Tell? && !i.CastList? && !i.CloseList? && !i.Sends?
    ensures
      var to := Body(sh, t, g, sv, i, ch);
      !Telling(to.pc, c) && (to.pc.ConnView? ==> Here(to.sh, g, t.Mine()))
  {
    hide Saved, Load, JoinGame, Apply, After, Before, Resumed, AttemptOf, AfterOk, Detach, DetachSet, DeleteGame, Send,
        Close;
  }

  lemma OwnSharp(sh: Shared, t: Tid, g: GameId, sv: Serving, i: InPc, ch: Choice, c: ConnId)
    requires Global(sh) && Local(sh, t, g, i) && !i.LeaveLock? && SharpIn(sh, t, g, i, c) && ListsConns(sh, t, g, i, ch)
    ensures var to := Body(sh, t, g, sv, i, ch); SharpIn(to.sh, t, g, to.pc, c)
  {
    hide Global, Local, Body, ListsConns, Telling, Here, Untold, LastTo;
    if i.Sends? {
      OwnSends(sh, t, g, sv, i, ch, c);
    } else {
      var to := Body(sh, t, g, sv, i, ch);
      BodyUntold(sh, t, g, sv, i, ch, c);
      BodyDo(sh, t, g, sv, i, ch);
      SilentBody(sh, t, g, i, ch, c);
      ReaderOnly(sh, t, g, i);
      if i.ConnView? || i.ConnList? || i.Tell? || i.CastList? || i.CloseList? {
        TellingHere(sh, t, g, sv, i, ch, c);
      } else {
        NobodyTold(sh, t, g, sv, i, ch, c);
      }
    }
  }

  lemma OwnSends(sh: Shared, t: Tid, g: GameId, sv: Serving, i: InPc, ch: Choice, c: ConnId)
    requires Local(sh, t, g, i) && SharpIn(sh, t, g, i, c) && i.Sends?
    ensures var to := Body(sh, t, g, sv, i, ch); SharpIn(to.sh, t, g, to.pc, c)
  {
    hide Local, SharpIn, SendNext;
    SendsOf(sh, t, g, i.todo, i.msgs, i.seats, i.next, i.after);
    SendsSharp(sh, t, g, sv, i.todo, i.msgs, i.seats, i.next, i.after, c);
  }

  /** Outside loops nothing is sent under a lock, and nobody reopens. */
  lemma SilentBody(sh: Shared, t: Tid, g: GameId, i: InPc, ch: Choice, c: ConnId)
    requires !i.Sends?
    ensures
      var sh' := Do(sh, BodyDoes(sh, t, g, i, ch));
      LastTo(sh', c) == LastTo(sh, c) && (sh.Closing(c) ==> sh'.Closing(c))
  {
    hide LastSnap, SaveGame, Attach, Detach, DetachSet, DeleteGame;
  }

  // ----- Every step -----

  /** What the step leaves of game g and connection c. */
  ghost predicate GameSharp(w: World, g: GameId, c: ConnId) {
    && (LockFree(w, g) ==> Sharp(w.sh, g, c))
    && (forall t :: IsInside(w, t, g) ==> SharpIn(w.sh, t, g, w.Phase(t).Doing(), c))
  }

  /** A game whose lock the goroutine holds and keeps. */
  lemma OwnGame(w: World, t: Tid, ch: Choice, g: GameId, c: ConnId)
    requires Inv(w) && CanRun(w, t, ch) && AllSharp(w, c) && IsInside(w, t, g) && !w.Phase(t).Doing().LeaveLock?
    ensures GameSharp(RunThread(w, t, ch), g, c)
  {
    hide LockInv, Justified, Body, Sharp, SharpIn, Rely, Local, Global;
    BodyOf(w, t, ch);
    RunThreads(w, t, ch);
    OwnSharp(w.sh, t, g, w.Served(t), w.Phase(t).Doing(), ch, c);
    assert IsInside(RunThread(w, t, ch), t, g);
    forall s | IsInside(RunThread(w, t, ch), s, g) ensures s == t {
      if s != t {
        assert IsInside(w, s, g);
        OneInside(w, s, t, g);
      }
    }
  }

  /** A game whose lock the goroutine takes or gives up. */
  lemma CrossedGame(w: World, t: Tid, ch: Choice, g: GameId, c: ConnId)
    requires Inv(w) && CanRun(w, t, ch) && AllSharp(w, c) && t in w.threads
    requires
      || (w.Phase(t).Waiting? && w.Phase(t).InGame() == g)
      || (IsInside(w, t, g) && w.Phase(t).Doing().LeaveLock?)
    ensures GameSharp(RunThread(w, t, ch), g, c)
  {
    hide LockInv, Global, Justified, Free, Body, Sharp, Here, ListsGames, ListsConns, StartOk, DetachOk, InOk, OutOk;
    RunThreads(w, t, ch);
    PhaseOf(w, t);
    var w' := RunThread(w, t, ch);
    if w.Phase(t).Waiting? {
      FreeToTake(w, t, ch);
      StartsPlain(w.sh, t, g, w.Phase(t).Doing());
      assert IsInside(w', t, g);
    } else {
      assert SharpIn(w.sh, t, g, w.Phase(t).Doing(), c);
    }
    forall s | IsInside(w', s, g) ensures SharpIn(w'.sh, s, g, w'.Phase(s).Doing(), c) {
      if s != t {
        assert IsInside(w, s, g);
        if IsInside(w, t, g) {
          OneInside(w, s, t, g);
        }
      }
    }
  }

  /** A game whose lock the step does not hold, before or after. */
  lemma OtherGame(w: World, e: Event, g: GameId, c: ConnId)
    requires Inv(w) && Enabled(w, e) && AllSharp(w, c) && !JoinsWhileTold(w, e, c) && Holding(w, e) != Some(g)
    requires forall s :: IsInside(Step(w, e), s, g) <==> IsInside(w, s, g)
    requires forall s :: IsInside(w, s, g) && Mover(e) != Some(s) ==> Step(w, e).On(s) == w.On(s)
    ensures GameSharp(Step(w, e), g, c)
  {
    hide LockInv, Global, Justified, Enabled, Step, Sharp, SharpIn, Elsewhere, Telling;
    StepElsewhere(w, e, g, c);
    var joins := match e case Go(t, _) => Joins(w, t, c) case _ => false;
    SharpStays(w.sh, Step(w, e).sh, Sweeper, g, LeaveLock(Idle), c, joins);
    forall s | IsInside(w, s, g) ensures SharpIn(Step(w, e).sh, s, g, w.Phase(s).Doing(), c) {
      SharpStays(w.sh, Step(w, e).sh, s, g, w.Phase(s).Doing(), c, joins);
    }
  }

  lemma StepSharp(w: World, e: Event, c: ConnId)
    requires Inv(w) && Enabled(w, e) && AllSharp(w, c) && !JoinsWhileTold(w, e, c)
    ensures AllSharp(Step(w, e), c)
  {
    hide LockInv, Global, Justified, AllSharp, JoinsWhileTold, LockFree, CanPass, ListsConns, Environment, Sharp,
        SharpIn,
        Free, Body, Rely;
    forall g ensures GameSharp(Step(w, e), g, c) {
      match e
      case Go(t, ch) =>
        RunThreads(w, t, ch);
        if IsInside(w, t, g) && !w.Phase(t).Doing().LeaveLock? {
          OwnGame(w, t, ch, g, c);
        } else if IsInside(w, t, g) || (w.Phase(t).Waiting? && w.Phase(t).InGame() == g) {
          CrossedGame(w, t, ch, g, c);
        } else {
          OtherGame(w, e, g, c);
        }
      case _ =>
        EnvironmentOf(w, e);
        SameInside(w, Step(w, e));
        OtherGame(w, e, g, c);
    }
    EachSharp(Step(w, e), c);
  }

  lemma EachSharp(w: World, c: ConnId)
    requires forall g :: GameSharp(w, g, c)
    ensures AllSharp(w, c)
  {
    hide LockFree, Sharp, SharpIn;
    forall g | LockFree(w, g) ensures Sharp(w.sh, g, c) {
      assert GameSharp(w, g, c);
    }
    forall t, g | IsInside(w, t, g) ensures SharpIn(w.sh, t, g, w.Phase(t).Doing(), c) {
      assert GameSharp(w, g, c);
    }
  }

  lemma InitSharp(w: World, c: ConnId)
    requires Init(w)
    ensures AllSharp(w, c)
  {
  }

  /**
   * Unless connection c was attached to a game while it was still to be sent a snapshot of another, the last snapshot
   * it was sent, of whichever game, is of the game it is attached to, and shows the stored state: whenever nobody is
   * inside the lock of that game and no snapshot of it failed to be built since its last broadcast.
   */
  lemma LastSnapshotIsCurrent(v: World, w: World, g: GameId, c: ConnId)
    requires Init(v) && LeadsBy(v, w, (u, e) => !JoinsWhileTold(u, e, c))
    requires LockFree(w, g) && g !in w.sh.stale && c in w.sh.reg.Attached(g) && !w.sh.Closing(c)
    ensures match LastTo(w.sh, c)
      case Some(last) => last.game == g && w.sh.State(g) == Some(last.Shows())
      case None => false
  {
    hide Init, LeadsBy, Inv, Enabled, Step, AllSharp, JoinsWhileTold, LockFree, LastSnap;
    var good := (u, e) => !JoinsWhileTold(u, e, c);
    LeadsReaches(v, w, good);
    ViewsAreCoherent(w, g, c);
    InitInv(v);
    InitSharp(v, c);
    forall u, e | Inv(u) && AllSharp(u, c) && Enabled(u, e) && good(u, e) ensures AllSharp(Step(u, e), c) {
      StepSharp(u, e, c);
    }
    KeptBy(v, w, good, u => AllSharp(u, c));
    SharpWhenFree(w, g, c);
    LastOfAll(w.sh.Log(c), g);
  }

  lemma SharpWhenFree(w: World, g: GameId, c: ConnId)
    requires AllSharp(w, c) && LockFree(w, g)
    ensures Sharp(w.sh, g, c)
  {
    hide LockFree, Sharp, SharpIn;
  }
}
