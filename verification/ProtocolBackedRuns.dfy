/** Along every run, every control state is backed by what the goroutine has been asked and has found. */
module ProtocolBackedRuns {
  import opened Wrappers
  import opened Timestamps
  import opened Rules
  import opened Store
  import opened Registry
  import opened Protocol
  import opened ProtocolDoes
  import opened ProtocolLocks
  import opened ProtocolInvariant
  import opened ProtocolRely
  import opened ProtocolNext
  import opened ProtocolSafety
  import opened ProtocolRounds
  import opened ProtocolRecall
  import opened ProtocolBacked
  import opened ProtocolBackedSteps

  /** What the invariant says about a loaded game that is about to be acted on. */
  lemma LoadedGame(w: World, t: Tid, g: GameId, l: LockRef, a: Action, seat: Seat, p: PlayerId)
    requires Inv(w) && t in w.threads && w.Phase(t) == Inside(g, l, ActLoad(a, seat, p))
    ensures g in w.sh.db.games && a.NeedsGame() && w.sh.Place(t.Mine()) == At(g, seat)
  {
    hide LockInv, Justified, DbOk, SeatsHeld, LogsOk, HistoriesOk, ToldOk, StartOk, RowOk;
    PhaseOf(w, t);
    assert t.Mine() in w.sh.reg.Attached(g) by {
      assert t.Mine() in w.sh.reg.link;
    }
    LoadedOpen(w.sh, t, g, ActLoad(a, seat, p));
  }

  lemma CopyOf(sh: Shared, t: Tid, g: GameId, i: InPc)
    requires Local(sh, t, g, i)
    ensures Copying(i) ==> CopyOk(sh, t, g, i)
    ensures Starting(i) ==> StartOk(sh, t, g, i)
    ensures match i
      case GameClose(todo) => sh.reg.Attached(g) == {} && forall d :: d in todo ==> d in sh.chan
      case _ => true
  {
    hide CopyOk, StartOk, MsgsOk, ThenOk, Covers, RowIs;
  }

  lemma ReaderBacked(w: World, t: Tid, g: GameId, l: LockRef, i: InPc, ch: Choice, m: Memory)
    requires Inv(w) && t in w.threads && w.Phase(t) == Inside(g, l, i) && BackedIn(w.sh, m, g, i)
    requires i.ConnReload? || i.ConnSave? || i.ActCheck? || i.ActLoad? || i.ActSave? || i.DetachCheck?
    ensures var to := Body(w.sh, t, g, w.Served(t), i, ch); BackedIn(to.sh, More(w, t, ch, m), g, to.pc)
  {
    hide LockInv, Justified, RegOk, SeatsHeld, LogsOk, HistoriesOk, DbOk, Body, BackedIn, More, Grows, CopyOk, Local,
        Rely,
        DetachOk, Covers;
    BodyOf(w, t, ch);
    CopyOf(w.sh, t, g, i);
    MoreGrows(w, t, ch, m);
    var m' := More(w, t, ch, m);
    match i
    case ConnReload(p, digest) => ReloadBacked(w, t, g, p, digest, ch, m, m');
    case ConnSave(p, copy, seat, joined) => ConnSaveBacked(w, t, g, p, copy, seat, joined, ch, m, m');
    case ActCheck(a) => ActCheckBacked(w, t, g, a, ch, m, m');
    case ActLoad(a, seat, p) =>
      LoadedGame(w, t, g, l, a, seat, p);
      ActLoadBacked(w, t, g, a, seat, p, ch, m, m');
    case ActSave(a, seat, p, copy) => ActSaveBacked(w, t, g, l, a, seat, p, copy, ch, m, m');
    case DetachCheck(d, tries, k) => DetachCheckBacked(w, t, g, d, tries, k, ch, m, m');
  }

  lemma TellingBacked(w: World, t: Tid, g: GameId, l: LockRef, i: InPc, ch: Choice, m: Memory)
    requires w.Phase(t) == Inside(g, l, i) && BackedIn(w.sh, m, g, i)
    requires i.ConnAttach? || i.ConnView? || i.ConnList? || i.ActDetach? || i.Tell? || i.CastView? || i.CastList?
        || i.CloseView? || i.CloseList? || i.Sends?
    ensures var to := Body(w.sh, t, g, w.Served(t), i, ch); BackedIn(to.sh, More(w, t, ch, m), g, to.pc)
  {
    hide Body, BackedIn, More, Grows;
    MoreGrows(w, t, ch, m);
    var m' := More(w, t, ch, m);
    match i
    case CloseView(reason, side, _, _, o) => ClosingBacked(w, t, g, i, reason, side, o, ch, m, m');
    case CloseList(reason, side, _, _, _, o) => ClosingBacked(w, t, g, i, reason, side, o, ch, m, m');
    case Sends(todo, msgs, seats, next, k) => SendsBacked(w, t, g, todo, msgs, seats, next, k, ch, m, m');
    case ConnAttach(seat, row, v, joined) => AttachBacked(w, t, g, l, seat, row, v, joined, ch, m, m');
    case _ =>
      if i.ConnView? || i.ConnList? {
        ViewBacked(w, t, g, i, ch, m, m');
      } else {
        TellBacked(w, t, g, i, ch, m, m');
      }
  }

  lemma SweeperBacked(w: World, t: Tid, g: GameId, l: LockRef, i: InPc, ch: Choice, m: Memory)
    requires Inv(w) && CanRun(w, t, ch) && w.Phase(t) == Inside(g, l, i) && BackedIn(w.sh, m, g, i)
    requires i.ExpReload? || i.ExpSave? || i.ExpDetach? || i.GameLoad? || i.GameDetach? || i.GameClose? || i.GameDelete?
    ensures var to := Body(w.sh, t, g, w.Served(t), i, ch); BackedIn(to.sh, More(w, t, ch, m), g, to.pc)
  {
    hide Inv, Body, BackedIn, Grows, CopyOk, StartOk, Local, Rely, Lists, FindingsOf;
    BodyOf(w, t, ch);
    CopyOf(w.sh, t, g, i);
    MoreGrows(w, t, ch, m);
    var m' := More(w, t, ch, m);
    match i
    case ExpReload(p, todo, mark) => ExpReloadBacked(w, t, g, p, todo, mark, ch, m, m');
    case ExpSave(p, todo, mark, copy, seat) => ExpSaveBacked(w, t, g, l, p, todo, mark, copy, seat, ch, m, m');
    case ExpDetach(p, todo, mark, seat, row, v) => ExpDetachBacked(w, t, g, p, todo, mark, seat, row, v, ch, m, m');
    case GameLoad(cutoff) => GameLoadBacked(w, t, g, cutoff, ch, m);
    case GameDetach => GameDetachBacked(w, t, g, ch, m, m');
    case GameClose(todo) => GameCloseBacked(w, t, g, todo, ch, m, m');
    case GameDelete => GameDeleteBacked(w, t, g, l, ch, m, m');
  }

  /** A step of one's own. */
  lemma OwnBacked(w: World, t: Tid, ch: Choice, m: Memory)
    requires Inv(w) && CanRun(w, t, ch) && Backed(w.sh, m, w.Phase(t))
    ensures Backed(RunThread(w, t, ch).sh, Remember(m, w, Go(t, ch), t), RunThread(w, t, ch).Phase(t))
  {
    hide LockInv, Global, Justified, Free, Body, BackedOut, BackedIn, BackedStart, OutOk, InOk, StartOk, ListsGames,
        ListsConns,
        FindingsOf, TaskOf;
    PhaseOf(w, t);
    match w.Phase(t)
    case Out(o) =>
      if o.Idle? {
        IdleBacked(w.sh, t, w.Served(t), ch);
      } else if o.Lock? {
        LockBacked(w, t, o.game, o.body, ch, m);
      } else {
        MoreGrows(w, t, ch, m);
        FreeBacked(w, t, o, ch, m, More(w, t, ch, m));
      }
    case Waiting(g, _, i) => WaitBacked(w, t, g, i, ch, m);
    case Inside(g, l, i) =>
      if i.LeaveLock? {
        LeaveBacked(w, t, g, i.out, ch, m);
      } else if i.ConnReload? || i.ConnSave? || i.ActCheck? || i.ActLoad? || i.ActSave? || i.DetachCheck? {
        ReaderBacked(w, t, g, l, i, ch, m);
      } else if i.ExpReload? || i.ExpSave? || i.ExpDetach? || i.GameLoad? || i.GameDetach? || i.GameClose?
          || i.GameDelete? {
        SweeperBacked(w, t, g, l, i, ch, m);
      } else {
        TellingBacked(w, t, g, l, i, ch, m);
      }
    case Exiting(g, _, o) => ExitBacked(w, t, o, ch, m);
  }

  /** Before the lock is taken, nobody is known to be attached. */
  lemma StartMore(w: World, t: Tid, g: GameId, i: InPc, ch: Choice, m: Memory)
    requires BackedStart(m, g, i) && !w.Phase(t).Inside?
    ensures BackedStart(More(w, t, ch, m), g, i)
  {
    hide Deserves, Grants, FindsSeat, Does;
    MoreGrows(w, t, ch, m);
    if !i.GameLoad? {
      StartStays(m, More(w, t, ch, m), g, i);
    }
  }

  lemma LockBacked(w: World, t: Tid, g: GameId, i: InPc, ch: Choice, m: Memory)
    requires w.Phase(t) == Out(Lock(g, i)) && BackedOut(w.sh, m, Lock(g, i))
    ensures BackedStart(More(w, t, ch, m), g, i)
  {
    hide BackedStart, More;
    StartMore(w, t, g, i, ch, m);
  }

  lemma WaitBacked(w: World, t: Tid, g: GameId, i: InPc, ch: Choice, m: Memory)
    requires w.Phase(t).Waiting? && BackedStart(m, g, i)
    ensures BackedIn(w.sh, More(w, t, ch, m), g, i)
  {
    StartMore(w, t, g, i, ch, m);
    StartIn(w.sh, More(w, t, ch, m), g, i);
  }

  lemma StartIn(sh: Shared, m: Memory, g: GameId, i: InPc)
    requires BackedStart(m, g, i)
    ensures BackedIn(sh, m, g, i)
  {
    hide BackedResume;
  }

  lemma LeaveBacked(w: World, t: Tid, g: GameId, o: OutPc, ch: Choice, m: Memory)
    requires BackedIn(w.sh, m, g, LeaveLock(o))
    ensures BackedGoing(w.sh, More(w, t, ch, m), o)
  {
    hide BackedGoing, FindingsOf;
    GoingStays(w.sh, w.sh, m, More(w, t, ch, m), o);
  }

  lemma ExitBacked(w: World, t: Tid, o: OutPc, ch: Choice, m: Memory)
    requires BackedGoing(w.sh, m, o)
    ensures BackedOut(w.sh, More(w, t, ch, m), o)
  {
    hide BackedOut, FindingsOf;
    GoingStays(w.sh, w.sh, m, More(w, t, ch, m), o);
  }

  // ----- The steps of others -----

  lemma OutAbides(sh: Shared, sh': Shared, m: Memory, o: OutPc)
    requires BackedOut(sh, m, o) && forall c :: sh.Closing(c) ==> sh'.Closing(c)
    ensures BackedOut(sh', m, o)
  {
    hide BackedStart, BackedResume, BackedRefusal, Shared.Closing;
  }

  /** What a game's lock keeps of it. */
  ghost predicate Guarded(sh: Shared, sh': Shared, g: GameId) {
    && sh'.reg.Attached(g) == sh.reg.Attached(g)
    && match Get(sh.db.games, g)
       case Some(row) => (match Get(sh'.db.games,
           g) case Some(row') => row'.lastActive == row.lastActive case None => false)
       case None => true
  }

  lemma InAbides(sh: Shared, sh': Shared, m: Memory, g: GameId, i: InPc)
    requires BackedIn(sh, m, g, i) && Guarded(sh, sh', g) && forall c :: sh.Closing(c) ==> sh'.Closing(c)
    ensures BackedIn(sh', m, g, i)
  {
    hide BackedOut, BackedResume, BackedMsg, BackedOver, Shared.Closing, Before;
    match i
    case CloseView(_, _, _, _, o) => OutAbides(sh, sh', m, o);
    case CloseList(_, _, _, _, _, o) => OutAbides(sh, sh', m, o);
    case LeaveLock(o) => OutAbides(sh, sh', m, o);
    case Sends(_, _, _, _, k) =>
      if k.ThenLeave? || k.ThenClose? {
        OutAbides(sh, sh', m, k.out);
      }
    case _ =>
  }

  lemma OtherBacked(w: World, e: Event, t: Tid, m: Memory)
    requires Inv(w) && Enabled(w, e) && t in w.threads && Mover(e) != Some(t) && Backed(w.sh, m, w.Phase(t))
    ensures Backed(Step(w, e).sh, m, w.Phase(t))
  {
    hide Inv, Enabled, Step, BackedOut, BackedIn, BackedStart, Rely;
    var sh' := Step(w, e).sh;
    StepGuards(w, e, t);
    match w.Phase(t)
    case Out(o) => OutAbides(w.sh, sh', m, o);
    case Waiting(_, _, _) =>
    case Inside(g, _, i) => InAbides(w.sh, sh', m, g, i);
    case Exiting(_, _, o) => OutAbides(w.sh, sh', m, o);
  }

  lemma StepGuards(w: World, e: Event, t: Tid)
    requires Inv(w) && Enabled(w, e) && t in w.threads && Mover(e) != Some(t)
    ensures forall c :: w.sh.Closing(c) ==> Step(w, e).sh.Closing(c)
    ensures w.Phase(t).Inside? ==> Guarded(w.sh, Step(w, e).sh, w.Phase(t).InGame())
  {
    hide Inv, Enabled, Step, PlayersKept, RegKept, StaleKept, LastAbout, Shared.Closing;
    StepRely(w, e);
    if w.Phase(t).Inside? {
      var g := w.Phase(t).InGame();
      if Holding(w, e) == Some(g) {
        match e
        case Go(s, _) =>
          assert IsInside(w, t, g);
          Insider(w, s, g);
          OneInside(w, s, t, g);
        case _ =>
      }
      AttachedKept(w, e, g);
      assert g in w.sh.db.games ==> RowKept(w.sh.db.games[g], Step(w, e).sh.db.games[g], Step(w, e).sh.db);
    }
  }

  lemma Insider(w: World, s: Tid, g: GameId)
    requires w.Phase(s).Inside? && w.Phase(s).InGame() == g
    ensures IsInside(w, s, g)
  {
  }

  // ----- Runs -----

  lemma StepBacked(w: World, e: Event, t: Tid, m: Memory)
    requires Inv(w) && Enabled(w, e) && t in w.threads && Backed(w.sh, m, w.Phase(t))
    ensures Backed(Step(w, e).sh, Remember(m, w, e, t), Step(w, e).Phase(t))
  {
    hide Inv, Backed, RunThread, Environment, CanPass, ListsConns, FindingsOf;
    match e
    case Go(s, ch) =>
      if s == t {
        OwnBacked(w, t, ch, m);
      } else {
        StaysPut(w, e, t);
        OtherBacked(w, e, t, m);
      }
    case _ =>
      StaysPut(w, e, t);
      OtherBacked(w, e, t, m);
  }

  lemma IdleIsBacked(sh: Shared, m: Memory)
    requires m.task == None
    ensures Backed(sh, m, Out(Idle))
  {
    hide BackedBusy;
  }

  /** A goroutine that is not there yet comes idle. */
  lemma NewIsIdle(w: World, e: Event, t: Tid)
    requires Inv(w) && Enabled(w, e) && t !in w.threads
    ensures t in Step(w, e).threads ==> Step(w, e).Phase(t) == Out(Idle)
    ensures Mover(e) != Some(t)
  {
    hide Inv, RunThread, Environment, CanPass, ListsConns;
    match e
    case Go(s, ch) => RunThreads(w, s, ch);
    case _ =>
  }

  /** After every number of steps of every run, every control state is backed. */
  lemma {:induction false} AlwaysBacked(run: nat -> World, events: nat -> Event, n: nat, k: nat, t: Tid)
    requires Runs(run, events, n) && k <= n
    ensures Inv(run(k))
    ensures t in run(k).threads ==> Backed(run(k).sh, Recall(run, events, k, t), run(k).Phase(t))
    ensures t !in run(k).threads ==> Recall(run, events, k, t).task == None
  {
    hide Inv, Backed, Enabled, Step, Reached;
    RunsReached(run, events, n, k);
    Always(run(k));
    if k == 0 {
      if t in run(0).threads {
        StartIdle(run(0), t);
        IdleIsBacked(run(0).sh, Recall(run, events, 0, t));
      }
    } else {
      hide Remember;
      RunsReached(run, events, n, k - 1);
      Always(run(k - 1));
      var m := Recall(run, events, k - 1, t);
      AlwaysBacked(run, events, n, k - 1, t);
      if t in run(k - 1).threads {
        Remains(run(k - 1), events(k - 1), t);
        StepBacked(run(k - 1), events(k - 1), t, m);
      } else {
        NewIsIdle(run(k - 1), events(k - 1), t);
        OthersForgotten(m, run(k - 1), events(k - 1), t);
        if t in run(k).threads {
          IdleIsBacked(run(k).sh, Recall(run, events, k, t));
        }
      }
    }
  }

  lemma OthersForgotten(m: Memory, w: World, e: Event, t: Tid)
    requires Mover(e) != Some(t)
    ensures Remember(m, w, e, t) == m
  {
  }

  lemma Remains(w: World, e: Event, t: Tid)
    requires Inv(w) && Enabled(w, e) && t in w.threads
    ensures t in Step(w, e).threads
  {
    hide Inv, RunThread, Environment, CanPass, ListsConns;
    match e
    case Go(s, ch) => RunThreads(w, s, ch);
    case _ =>
  }

  lemma StartIdle(w: World, t: Tid)
    requires Init(w) && t in w.threads
    ensures w.Phase(t) == Out(Idle)
  {
  }
}
