/** The invariant holds in every world of every behaviour. */
module ProtocolSafety {
  import opened Wrappers
  import opened Store
  import opened Protocol
  import opened ProtocolReached
  import opened ProtocolDoes
  import opened ProtocolLocks
  import opened ProtocolInvariant
  import opened ProtocolRely
  import opened ProtocolEffects
  import opened ProtocolStoreEffects
  import opened ProtocolFree
  import opened ProtocolBody
  import opened ProtocolNext

  lemma KnownRows(sh: Shared, t: Tid, g: GameId)
    requires Global(sh) && (t.Reader? ==> t.Mine() in sh.chan)
    ensures RowKnown(sh, g) && ReaderKnown(sh, t) && (t.Reader? ==> t.Mine() in sh.reg.link)
  {
  }

  /** A goroutine's assertion survives the step of another. */
  lemma PhaseStable(sh: Shared, sh': Shared, who: Option<Tid>, lock: Option<GameId>, t: Tid, phase: Phase)
    requires Rely(sh, sh', who, lock) && who != Some(t) && Global(sh)
    requires t.Reader? ==> t.Mine() in sh.chan
    requires phase.Inside? ==> lock != Some(phase.InGame())
    requires PhaseOk(sh, t, phase)
    ensures PhaseOk(sh', t, phase)
  {
    hide Rely, Global, InOk, OutOk, StartOk, RowKnown, ReaderKnown, OwnKept;
    KnownRows(sh, t, phase.InGame());
    OwnStable(sh, sh', who, lock, t);
    match phase
    case Out(o) => OutStable(sh, sh', t, o);
    case Waiting(g, _, i) => StartStable(sh, sh', t, g, i);
    case Inside(g, _, i) => InStable(sh, sh', who, lock, t, g, i);
    case Exiting(_, _, o) => OutStable(sh, sh', t, o);
  }

  /**
   * One goroutine moves from phase to phase, changing the shared state under the lock it holds, if any. What the
   * others assert and what holds of unlocked games is kept.
   */
  lemma OthersKeep(w: World, w': World, t: Tid, lock: Option<GameId>)
    requires LockInv(w) && Global(w.sh) && Justified(w)
    requires t in w.threads && w'.threads.Keys == w.threads.Keys
    requires forall s :: s in w.threads && s != t ==> w'.On(s) == w.On(s)
    requires Rely(w.sh, w'.sh, Some(t), lock)
    requires forall g: GameId :: lock == Some(g) ==> IsInside(w, t, g)
    requires PhaseOk(w'.sh, t, w'.Phase(t))
    requires forall g :: LockFree(w', g) && !LockFree(w, g) ==> Settled(w'.sh, g)
    ensures Justified(w')
  {
    hide Global, LockInv, PhaseOk, Settled;
    forall s | s in w'.threads && s != t ensures PhaseOk(w'.sh, s, w.Phase(s)) {
      if w.Phase(s).Inside? && lock == Some(w.Phase(s).InGame()) {
        AtMostOneInside(w, s, t, lock.value);
      }
      PhaseStable(w.sh, w'.sh, Some(t), lock, s, w.Phase(s));
    }
    forall g | LockFree(w', g) && LockFree(w, g) ensures Settled(w'.sh, g) {
      assert lock.Some? ==> IsInside(w, t, lock.value);
      SettledStable(w.sh, w'.sh, Some(t), lock, g);
    }
    ChansGrow(w.sh, w'.sh, Some(t), lock);
  }

  lemma ChansGrow(sh: Shared, sh': Shared, who: Option<Tid>, lock: Option<GameId>)
    requires Rely(sh, sh', who, lock)
    ensures sh.chan.Keys <= sh'.chan.Keys
  {
  }

  /** A goroutine that keeps its standing leaves every lock as it was. */
  lemma SameLocks(w: World, w': World, t: Tid)
    requires t in w.threads && w'.threads == w.threads[t := w'.On(t)] && SameStanding(w.Phase(t), w'.Phase(t))
    ensures forall g :: LockFree(w', g) <==> LockFree(w, g)
  {
    forall g, s ensures IsInside(w', s, g) <==> IsInside(w, s, g) {
    }
  }

  lemma PhaseOf(w: World, t: Tid)
    requires Justified(w) && t in w.threads
    ensures PhaseOk(w.sh, t, w.Phase(t)) && (t.Reader? ==> t.Mine() in w.sh.chan)
  {
  }

  /** A goroutine outside locks steps. */
  lemma FreeStep(w: World, t: Tid, o: OutPc, ch: Choice)
    requires LockInv(w) && Global(w.sh) && Justified(w) && t in w.threads
    requires w.Phase(t) == Out(o) && ListsGames(w.sh, o, ch)
    ensures
      var to := Free(w.sh, t, w.Served(t), o, ch);
      Global(to.sh) && Justified(Passed(w, t, to))
  {
    hide Global, Free, OutOk, Rely, LockInv, Settled, LockFree, Justified, ListsGames;
    var to := Free(w.sh, t, w.Served(t), o, ch);
    PhaseOf(w, t);
    FreeKeeps(w.sh, t, w.Served(t), o, ch);
    FreeNext(w.sh, t, w.Served(t), o, ch);
    SameLocks(w, Passed(w, t, to), t);
    OthersKeep(w, Passed(w, t, to), t, None);
  }

  /** A goroutine holding a lock steps. */
  lemma BodyStep(w: World, t: Tid, g: GameId, l: LockRef, i: InPc, ch: Choice)
    requires LockInv(w) && Global(w.sh) && Justified(w) && t in w.threads
    requires w.Phase(t) == Inside(g, l, i) && ListsConns(w.sh, t, g, i, ch) && !i.LeaveLock?
    ensures
      var to := Body(w.sh, t, g, w.Served(t), i, ch);
      Global(to.sh) && Justified(Worked(w, t, g, l, to))
  {
    hide Global, Body, InOk, Local, Rely, LockInv, Settled, LockFree, Justified, ListsConns;
    var to := Body(w.sh, t, g, w.Served(t), i, ch);
    PhaseOf(w, t);
    LocalOf(w.sh, t, g, i);
    BodyKeeps(w.sh, t, g, w.Served(t), i, ch);
    BodyNext(w.sh, t, g, w.Served(t), i, ch);
    SameLocks(w, Worked(w, t, g, l, to), t);
    OthersKeep(w, Worked(w, t, g, l, to), t, Some(g));
  }

  /** A settled game justifies whoever takes its lock. */
  lemma Entering(sh: Shared, t: Tid, g: GameId, i: InPc)
    requires Settled(sh, g) && StartOk(sh, t, g, i)
    ensures InOk(sh, t, g, i)
  {
  }

  /** Whoever leaves a lock leaves the game settled. */
  lemma Leaving(sh: Shared, t: Tid, g: GameId, o: OutPc)
    requires InOk(sh, t, g, LeaveLock(o))
    ensures Settled(sh, g) && OutOk(sh, t, o)
  {
  }

  /** A goroutine registers for a lock, or stops using one: nobody enters or leaves. */
  lemma OutsideStep(w: World, w': World, t: Tid)
    requires LockInv(w) && Global(w.sh) && Justified(w)
    requires t in w.threads && w'.sh == w.sh && w'.threads == w.threads[t := w'.On(t)]
    requires !w.Phase(t).Inside? && !w'.Phase(t).Inside?
    requires PhaseOk(w.sh, t, w'.Phase(t))
    ensures Justified(w')
  {
    hide Global, Rely, LockInv, Settled, PhaseOk, Justified;
    NothingKeeps(w.sh, Some(t), None);
    forall g ensures LockFree(w', g) <==> LockFree(w, g) {
      assert forall s :: IsInside(w', s, g) <==> IsInside(w, s, g);
    }
    OthersKeep(w, w', t, None);
  }

  /** A goroutine enters or leaves the lock of game g, and leaves everything shared as it was. */
  lemma CrossingStep(w: World, w': World, t: Tid, g: GameId)
    requires LockInv(w) && Global(w.sh) && Justified(w)
    requires t in w.threads && w'.sh == w.sh && w'.threads == w.threads[t := w'.On(t)]
    requires PhaseOk(w.sh, t, w'.Phase(t)) && Settled(w.sh, g)
    requires forall s, h :: h != g ==> (IsInside(w', s, h) <==> IsInside(w, s, h))
    ensures Justified(w')
  {
    hide Global, Rely, LockInv, Settled, PhaseOk, Justified, IsInside;
    NothingKeeps(w.sh, Some(t), None);
    forall h | LockFree(w', h) && h != g ensures LockFree(w, h) {
      forall s ensures !IsInside(w, s, h) {
        assert !IsInside(w', s, h);
      }
    }
    hide LockFree;
    OthersKeep(w, w', t, None);
  }

  lemma EnterStep(w: World, t: Tid, g: GameId, l: LockRef, i: InPc)
    requires LockInv(w) && Global(w.sh) && Justified(w) && t in w.threads
    requires w.Phase(t) == Waiting(g, l, i) && w.Obj(l).holder.None?
    ensures Justified(AcquireLock(w, t, g, l, i))
  {
    hide Global, LockInv, Settled, StartOk, InOk, OutOk, Justified, LockFree;
    NobodyInside(w, t, g);
    UnlockedSettled(w, g);
    PhaseOf(w, t);
    Entering(w.sh, t, g, i);
    CrossingStep(w, AcquireLock(w, t, g, l, i), t, g);
  }

  /** A lock that can be taken is free. */
  lemma NobodyInside(w: World, t: Tid, g: GameId)
    requires LockInv(w) && t in w.threads && w.Phase(t).Waiting? && w.Phase(t).InGame() == g
    requires w.Obj(w.Phase(t).Ref()).holder.None?
    ensures LockFree(w, g)
  {
    hide Users;
    assert w.Obj(w.Phase(t).Ref()) == w.objs[w.locks[g]];
  }

  lemma UnlockedSettled(w: World, g: GameId)
    requires Justified(w) && LockFree(w, g)
    ensures Settled(w.sh, g)
  {
    hide PhaseOk, Settled, LockFree;
  }

  lemma LeaveStep(w: World, t: Tid, g: GameId, l: LockRef, o: OutPc)
    requires LockInv(w) && Global(w.sh) && Justified(w) && t in w.threads
    requires w.Phase(t) == Inside(g, l, LeaveLock(o))
    ensures Justified(ReleaseLock(w, t, g, l, o))
  {
    hide Global, LockInv, Settled, OutOk, InOk, StartOk, Justified, LockFree;
    PhaseOf(w, t);
    Leaving(w.sh, t, g, o);
    CrossingStep(w, ReleaseLock(w, t, g, l, o), t, g);
  }

  lemma GoStep(w: World, t: Tid, ch: Choice)
    requires LockInv(w) && Global(w.sh) && Justified(w) && CanRun(w, t, ch)
    ensures Global(RunThread(w, t, ch).sh) && Justified(RunThread(w, t, ch))
  {
    hide Global, LockInv, Justified, Free, Body, OutOk, StartOk, InOk, ListsGames, ListsConns;
    PhaseOf(w, t);
    match w.Phase(t)
    case Out(Lock(g, i)) =>
      StartsPlain(w.sh, t, g, i);
      OutsideStep(w, RunThread(w, t, ch), t);
    case Out(o) => FreeStep(w, t, o, ch);
    case Waiting(g, l, i) => EnterStep(w, t, g, l, i);
    case Inside(g, l, i) =>
      if i.LeaveLock? {
        LeaveStep(w, t, g, l, i.out);
      } else {
        BodyStep(w, t, g, l, i, ch);
      }
    case Exiting(g, l, o) => OutsideStep(w, RunThread(w, t, ch), t);
  }

  /** What a goroutine is to begin under a lock does not yet say where it goes on afterwards. */
  lemma StartsPlain(sh: Shared, t: Tid, g: GameId, i: InPc)
    requires OutOk(sh, t, Lock(g, i)) || StartOk(sh, t, g, i)
    ensures StartOk(sh, t, g, i) && Starting(i) && Onward(i) == None
  {
    hide DetachOk, Covers;
  }

  // ----- The rest of the program -----

  /** The rest of the program only adds readers of new connections. */
  ghost predicate Adds(w: World, w': World) {
    || w'.threads == w.threads
    || exists c: ConnId :: c in w'.sh.chan && Reader(c) !in w.threads
         && w'.threads == w.threads[Reader(c) := Thread(Out(Idle), Serving(0, false))]
  }

  /** The rest of the program does only what anybody may do. */
  lemma EnvironmentKeeps(w: World, e: Event)
    requires Global(w.sh) && Enabled(w, e) && !e.Go?
    ensures Global(Environment(w.sh, e)) && Rely(w.sh, Environment(w.sh, e), None, None)
  {
    hide Global, Rely, Environment, Do, SaveOk, MaySit, Sendable, CanRun;
    EnvironmentDo(w.sh, e);
    DoKeeps(w.sh, None, None, EnvironmentDoes(e));
  }

  lemma EnvironmentThreads(w: World, e: Event)
    requires Justified(w) && Enabled(w, e) && !e.Go?
    ensures Adds(w, Step(w, e)) && Step(w, e).sh == Environment(w.sh, e)
    ensures Step(w, e).locks == w.locks && Step(w, e).objs == w.objs
  {
    hide PhaseOk, Settled, LockFree;
    match e
    case NewConn(c) =>
      assert Reader(c) !in w.threads by {
        assert Reader(c).Mine() == c;
      }
      assert c in Step(w, e).sh.chan;
    case _ =>
  }

  lemma EnvironmentStep(w: World, w': World)
    requires Global(w.sh) && Justified(w) && Adds(w, w') && Rely(w.sh, w'.sh, None, None)
    ensures Justified(w')
  {
    hide Global, Rely, Settled, PhaseOk;
    forall s | s in w.threads ensures PhaseOk(w'.sh, s, w.Phase(s)) {
      PhaseStable(w.sh, w'.sh, None, None, s, w.Phase(s));
    }
    forall g | LockFree(w', g) ensures Settled(w'.sh, g) {
      forall s ensures !IsInside(w, s, g) {
        assert !IsInside(w', s, g);
      }
      SettledStable(w.sh, w'.sh, None, None, g);
    }
    ChansGrow(w.sh, w'.sh, None, None);
    forall c: ConnId ensures PhaseOk(w'.sh, Reader(c), Out(Idle)) {
      IdleReader(w'.sh, c);
    }
  }

  lemma IdleReader(sh: Shared, c: ConnId)
    ensures PhaseOk(sh, Reader(c), Out(Idle))
  {
  }

  // ----- Every step -----

  /** What a step of the rest of the program does to the goroutines. */
  lemma EnvironmentOf(w: World, e: Event)
    requires Inv(w) && Enabled(w, e) && !e.Go?
    ensures Step(w, e).sh == Environment(w.sh, e) && Rely(w.sh, Step(w, e).sh, None, None) && Adds(w, Step(w, e))
  {
    hide LockInv, Global, Justified, Rely, Adds, Environment, Enabled, Step;
    EnvironmentKeeps(w, e);
    EnvironmentThreads(w, e);
  }

  /** Every enabled event keeps the invariant. */
  lemma StepInv(w: World, e: Event)
    requires Inv(w) && Enabled(w, e)
    ensures Inv(Step(w, e))
  {
    hide LockInv, Global, PhaseOk, Settled, LockFree, CanRun, RunThread, Rely, Adds, Environment;
    StepLocks(w, e);
    match e
    case Go(t, ch) => GoStep(w, t, ch);
    case _ =>
      EnvironmentKeeps(w, e);
      EnvironmentThreads(w, e);
      EnvironmentStep(w, Step(w, e));
  }

  lemma InitInv(w: World)
    requires Init(w)
    ensures Inv(w)
  {
    InitLocks(w);
  }

  /** What holds at the start, and is kept by every good step, holds wherever good steps lead. */
  lemma KeptBy(v: World, w: World, good: (World, Event) -> bool, P: World -> bool)
    requires Inv(v) && LeadsBy(v, w, good) && P(v)
    requires forall u, e :: Inv(u) && P(u) && Enabled(u, e) && good(u, e) ==> P(Step(u, e))
    ensures Inv(w) && P(w)
  {
    hide *;
    forall u, e | Inv(u) && P(u) && Enabled(u, e) && good(u, e) ensures Inv(Step(u, e)) {
      StepInv(u, e);
    }
    Induction(v, w, good, u => Inv(u) && P(u));
  }

  lemma AlwaysKept(w: World, P: World -> bool)
    requires Reached(w) && forall v :: Init(v) ==> P(v)
    requires forall u, e :: Inv(u) && P(u) && Enabled(u, e) ==> P(Step(u, e))
    ensures Inv(w) && P(w)
  {
    hide Init, LeadsBy, Enabled, Step, Inv;
    var v :| Init(v) && Leads(v, w);
    InitInv(v);
    KeptBy(v, w, Any, P);
  }

  /** Every reached world satisfies the invariant. */
  lemma Always(w: World)
    requires Reached(w)
    ensures Inv(w)
  {
    hide *;
    AlwaysKept(w, v => true);
  }

  // ----- One goroutine's step, apart from the lock tables -----

  /** Where a step of goroutine t takes the shared state and t itself. */
  ghost predicate Steps(w: World, w': World, t: Tid, ch: Choice) {
    && t in w.threads && w'.threads == w.threads[t := w'.On(t)]
    && match w.Phase(t)
       case Out(o) =>
         (match o
          case Lock(g, i) => w'.sh == w.sh && Registers(w'.Phase(t), g, i) && w'.Served(t) == w.Served(t)
          case _ =>
            var to := Free(w.sh, t, w.Served(t), o, ch);
            w'.sh == to.sh && w'.On(t) == Thread(Out(to.pc), to.serving))
       case Waiting(g, l, i) => w'.sh == w.sh && w'.On(t) == Thread(Inside(g, l, i), w.Served(t))
       case Inside(g, l, i) =>
         (match i
          case LeaveLock(o) => w'.sh == w.sh && w'.On(t) == Thread(Exiting(g, l, o), w.Served(t))
          case _ =>
            var to := Body(w.sh, t, g, w.Served(t), i, ch);
            w'.sh == to.sh && w'.On(t) == Thread(Inside(g, l, to.pc), to.serving))
       case Exiting(_, _, o) => w'.sh == w.sh && w'.On(t) == Thread(Out(o), w.Served(t))
  }

  predicate Registers(phase: Phase, g: GameId, i: InPc) {
    phase.Waiting? && phase.InGame() == g && phase.Doing() == i
  }

  lemma GoSteps(w: World, t: Tid, ch: Choice)
    requires CanRun(w, t, ch)
    ensures t in w.threads && Steps(w, RunThread(w, t, ch), t, ch)
  {
    hide Free, Body, ListsGames, ListsConns;
  }

  // ----- What the invariant says about the goroutine that steps -----

  lemma InvParts(w: World)
    requires Inv(w)
    ensures LockInv(w) && Global(w.sh) && Justified(w)
  {
    hide LockInv, Global, Justified;
  }

  lemma OneInside(w: World, s: Tid, t: Tid, g: GameId)
    requires Inv(w) && IsInside(w, s, g) && IsInside(w, t, g)
    ensures s == t
  {
    hide Justified, Global, LockInv;
    AtMostOneInside(w, s, t, g);
  }

  lemma FreeOf(w: World, t: Tid, ch: Choice)
    requires Inv(w) && t in w.threads && w.Phase(t).Out?
    ensures
      var o := w.Phase(t).Going();
      && Rely(w.sh, Free(w.sh, t, w.Served(t), o, ch).sh, Some(t), None)
      && (o.Dispatch? || o.Gate? || o.WithGame? ==> t.Reader?)
  {
    hide LockInv, Justified, Global, Free, Rely;
    PhaseOf(w, t);
    FreeKeeps(w.sh, t, w.Served(t), w.Phase(t).Going(), ch);
  }

  lemma BodyOf(w: World, t: Tid, ch: Choice)
    requires Inv(w) && t in w.threads && w.Phase(t).Inside?
    ensures
      var g, i := w.Phase(t).InGame(), w.Phase(t).Doing();
      && Rely(w.sh, Body(w.sh, t, g, w.Served(t), i, ch).sh, Some(t), Some(g))
      && Local(w.sh, t, g, i)
  {
    hide LockInv, Justified, Global, Body, Rely, InOk, Local;
    PhaseOf(w, t);
    LocalOf(w.sh, t, w.Phase(t).InGame(), w.Phase(t).Doing());
    BodyKeeps(w.sh, t, w.Phase(t).InGame(), w.Served(t), w.Phase(t).Doing(), ch);
  }

  /** The goroutine that makes a step, unless the rest of the program does. */
  function Mover(e: Event): Option<Tid> {
    match e
    case Go(t, _) => Some(t)
    case _ => None
  }

  /** The game whose lock is held by the goroutine that makes a step. */
  function Holding(w: World, e: Event): Option<GameId> {
    match e
    case Go(t, _) => if w.Phase(t).Inside? then Some(w.Phase(t).InGame()) else None
    case _ => None
  }

  /** Every step does what it may do. */
  lemma StepAllowed(w: World, e: Event)
    requires Inv(w) && Enabled(w, e)
    ensures Global(w.sh) && Allowed(w.sh, Mover(e), Holding(w, e), Does(w, e))
  {
    hide LockInv, Justified, Global, FreeDoes, BodyDoes, InOk, OutOk, Local, ListsGames, ListsConns, SaveOk, MaySit,
        Sendable;
    match e
    case Go(t, ch) =>
      PhaseOf(w, t);
      match w.Phase(t) {
        case Out(o) => FreeAllowed(w.sh, t, w.Served(t), o, ch);
        case Inside(g, _, i) =>
          LocalOf(w.sh, t, g, i);
          BodyAllowed(w.sh, t, g, i, ch);
        case _ =>
      }
    case _ =>
  }

  /** Every step stays within what the others rely on. */
  lemma StepRely(w: World, e: Event)
    requires Inv(w) && Enabled(w, e)
    ensures Rely(w.sh, Step(w, e).sh, Mover(e), Holding(w, e))
  {
    hide *;
    StepAllowed(w, e);
    StepDo(w, e);
    DoKeeps(w.sh, Mover(e), Holding(w, e), Does(w, e));
  }

  /** Only the holder of its lock attaches connections to a game or detaches them. */
  lemma AttachedKept(w: World, e: Event, g: GameId)
    requires Inv(w) && Enabled(w, e) && Holding(w, e) != Some(g)
    ensures Step(w, e).sh.reg.Attached(g) == w.sh.reg.Attached(g)
  {
    hide Inv, Enabled, Step, PlayersKept, RowsKept, ChansKept, StaleKept;
    StepRely(w, e);
  }

  /** The rest of the program moves nobody into or out of a lock. */
  lemma SameInside(w: World, w': World)
    requires Adds(w, w')
    ensures forall s, g :: IsInside(w', s, g) <==> IsInside(w, s, g)
  {
  }

  lemma FreeToTake(w: World, t: Tid, ch: Choice)
    requires Inv(w) && CanRun(w, t, ch) && w.Phase(t).Waiting?
    ensures LockFree(w, w.Phase(t).InGame())
  {
    hide LockInv, Justified, Global, ListsGames, ListsConns;
    NobodyInside(w, t, w.Phase(t).InGame());
  }
}
