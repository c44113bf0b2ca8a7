/**
 * Game locks are created when first wanted and dropped when nobody uses them, and still exclude each other:
 * in every reachable world all users of a game share one lock object, its count is their number, and at most
 * one of them is inside.
 */
module ProtocolLocks {
  import opened Wrappers
  import opened Store
  import opened Protocol

  /** Between registering for the lock of game g and being done with it. */
  predicate Uses(phase: Phase, g: GameId) {
    !phase.Out? && phase.InGame() == g
  }

  predicate IsInside(w: World, t: Tid, g: GameId) {
    t in w.threads && w.Phase(t).Inside? && w.Phase(t).InGame() == g
  }

  ghost function Users(w: World, g: GameId): set<Tid> {
    set t | t in w.threads && Uses(w.Phase(t), g)
  }

  /** Every user of a game has the lock object that the table has for it, and no two games share one. */
  ghost predicate OneObject(w: World) {
    && (forall t :: t in w.threads && !w.Phase(t).Out? ==>
          && w.Phase(t).InGame() in w.locks
          && w.Phase(t).Ref() == w.locks[w.Phase(t).InGame()])
    && (forall g :: g in w.locks ==> w.locks[g] in w.objs)
    && (forall g, g' :: g in w.locks && g' in w.locks && w.locks[g] == w.locks[g'] ==> g == g')
  }

  /** The count of a lock object is the number of its users, and the table drops it with the last. */
  ghost predicate Counted(w: World) {
    forall g :: g in w.locks ==> w.locks[g] in w.objs && w.objs[w.locks[g]].refs == |Users(w, g)| && Users(w, g) != {}
  }

  /** The holder of a lock object is whoever is inside. */
  ghost predicate Held(w: World) {
    forall g, t :: g in w.locks ==>
      w.locks[g] in w.objs && (w.objs[w.locks[g]].holder == Some(t) <==> IsInside(w, t, g))
  }

  ghost predicate LockInv(w: World) {
    OneObject(w) && Counted(w) && Held(w)
  }

  lemma InitLocks(w: World)
    requires Init(w)
    ensures LockInv(w)
  {
  }

  /** Steps that leave every goroutine's standing towards every lock as it was. */
  ghost predicate SameStanding(p: Phase, q: Phase) {
    || (p.Out? && q.Out?)
    || (p.Inside? && q.Inside? && p.InGame() == q.InGame() && p.Ref() == q.Ref())
  }

  lemma OtherStepKeeps(w: World, w': World, t: Tid)
    requires LockInv(w) && t in w.threads
    requires w'.locks == w.locks && w'.objs == w.objs
    requires exists th :: w'.threads == w.threads[t := th] && SameStanding(w.Phase(t), th.phase)
    ensures LockInv(w')
  {
    forall g ensures Users(w', g) == Users(w, g) {
    }
    forall g, s ensures IsInside(w', s, g) <==> IsInside(w, s, g) {
    }
  }

  /** Registering adds a user and puts nobody inside. */
  lemma RegisterUsers(w: World, t: Tid, g: GameId, i: InPc, newRef: LockRef)
    requires LockInv(w) && t in w.threads && w.Phase(t).Out?
    ensures
      var w' := RegisterLock(w, t, g, i, newRef);
      && Users(w', g) == Users(w, g) + {t} && t !in Users(w, g)
      && (forall h :: h != g ==> Users(w', h) == Users(w, h))
      && (forall h, s :: IsInside(w', s, h) <==> IsInside(w, s, h))
    ensures g !in w.locks ==> Users(w, g) == {}
    ensures forall h, s :: IsInside(w, s, h) ==> s in Users(w, h)
  {
    var w' := RegisterLock(w, t, g, i, newRef);
    forall h | h != g ensures Users(w', h) == Users(w, h) {
    }
    forall s | g !in w.locks ensures s !in Users(w, g) {
    }
  }

  lemma RegisterKeeps(w: World, t: Tid, g: GameId, i: InPc, newRef: LockRef)
    requires LockInv(w) && t in w.threads && w.Phase(t).Out?
    requires g in w.locks || newRef !in w.objs
    ensures LockInv(RegisterLock(w, t, g, i, newRef))
  {
    RegisterUsers(w, t, g, i, newRef);
    RegisterObject(w, t, g, i, newRef);
    hide Users, IsInside, RegisterLock;
    RegisterCounted(w, RegisterLock(w, t, g, i, newRef), t, g);
  }

  lemma RegisterObject(w: World, t: Tid, g: GameId, i: InPc, newRef: LockRef)
    requires LockInv(w) && t in w.threads && w.Phase(t).Out?
    requires g in w.locks || newRef !in w.objs
    ensures
      var w' := RegisterLock(w, t, g, i, newRef);
      && OneObject(w') && g in w'.locks && w'.locks[g] in w'.objs
      && w'.locks.Keys == w.locks.Keys + {g}
      && w'.objs[w'.locks[g]].refs == (if g in w.locks then w.objs[w.locks[g]].refs else 0) + 1
      && w'.objs[w'.locks[g]].holder == (if g in w.locks then w.objs[w.locks[g]].holder else None)
      && (forall h :: h in w.locks && h != g ==>
            w'.locks[h] == w.locks[h] && w'.objs[w'.locks[h]] == w.objs[w.locks[h]])
  {
    hide Counted, Held, Users, IsInside;
  }

  lemma RegisterCounted(w: World, w': World, t: Tid, g: GameId)
    requires LockInv(w) && OneObject(w') && w'.locks.Keys == w.locks.Keys + {g}
    requires w'.objs[w'.locks[g]].refs == (if g in w.locks then w.objs[w.locks[g]].refs else 0) + 1
    requires w'.objs[w'.locks[g]].holder == (if g in w.locks then w.objs[w.locks[g]].holder else None)
    requires forall h :: h in w.locks && h != g ==>
      w'.locks[h] == w.locks[h] && w'.objs[w'.locks[h]] == w.objs[w.locks[h]]
    requires Users(w', g) == Users(w, g) + {t} && t !in Users(w, g) && (g !in w.locks ==> Users(w, g) == {})
    requires forall h :: h != g ==> Users(w', h) == Users(w, h)
    requires forall h, s :: IsInside(w', s, h) <==> IsInside(w, s, h)
    requires forall h, s :: IsInside(w, s, h) ==> s in Users(w, h)
    ensures Counted(w') && Held(w')
  {
    hide Users, IsInside;
  }

  lemma AcquireKeeps(w: World, t: Tid)
    requires LockInv(w) && t in w.threads && w.Phase(t).Waiting?
    requires var l := w.Phase(t).Ref(); l in w.objs && w.objs[l].holder.None?
    ensures var p := w.Phase(t); LockInv(AcquireLock(w, t, p.InGame(), p.Ref(), p.Doing()))
  {
    var p := w.Phase(t);
    var w' := AcquireLock(w, t, p.InGame(), p.Ref(), p.Doing());
    forall g ensures Users(w', g) == Users(w, g) {
    }
    forall g, s ensures IsInside(w', s, g) <==> IsInside(w, s, g) || (s == t && g == p.InGame()) {
    }
    forall s ensures !IsInside(w, s, p.InGame()) {
      assert w.objs[w.locks[p.InGame()]].holder == None;
    }
  }

  lemma ReleaseKeeps(w: World, t: Tid, o: OutPc)
    requires LockInv(w) && t in w.threads && w.Phase(t).Inside?
    ensures var p := w.Phase(t); LockInv(ReleaseLock(w, t, p.InGame(), p.Ref(), o))
  {
    var p := w.Phase(t);
    var w' := ReleaseLock(w, t, p.InGame(), p.Ref(), o);
    forall g ensures Users(w', g) == Users(w, g) {
    }
    assert IsInside(w, t, p.InGame());
    forall g, s ensures IsInside(w', s, g) <==> IsInside(w, s, g) && s != t {
    }
    forall s | IsInside(w, s, p.InGame()) ensures s == t {
      AtMostOneInside(w, s, t, p.InGame());
    }
  }

  lemma UnregisterKeeps(w: World, t: Tid, o: OutPc)
    requires LockInv(w) && t in w.threads && w.Phase(t).Exiting?
    ensures var p := w.Phase(t); LockInv(UnregisterLock(w, t, p.InGame(), p.Ref(), o))
  {
    var p := w.Phase(t);
    var w' := UnregisterLock(w, t, p.InGame(), p.Ref(), o);
    UsersLeft(w, w', t, p.InGame());
    assert t in Users(w, p.InGame());
    assert w'.objs[p.Ref()].refs == |Users(w', p.InGame())|;
    forall s | s in w'.threads && !w'.Phase(s).Out? && w'.Phase(s).InGame() == p.InGame()
      ensures p.InGame() in w'.locks
    {
      assert s in Users(w', p.InGame());
    }
  }

  /** Whoever stops using a lock is no user any more, and nobody else changes. */
  lemma UsersLeft(w: World, w': World, t: Tid, g: GameId)
    requires t in w.threads && w'.threads == w.threads[t := w'.On(t)]
    requires w.Phase(t).Exiting? && w.Phase(t).InGame() == g && w'.Phase(t).Out?
    ensures Users(w', g) == Users(w, g) - {t} && forall h :: h != g ==> Users(w', h) == Users(w, h)
    ensures forall h, s :: IsInside(w', s, h) <==> IsInside(w, s, h)
  {
  }

  /** A goroutine outside locks steps: it registers for a lock, or keeps out of them. */
  lemma OutsideLocks(w: World, t: Tid, ch: Choice)
    requires LockInv(w) && CanRun(w, t, ch) && w.Phase(t).Out?
    ensures LockInv(RunThread(w, t, ch))
  {
    hide LockInv, Free, Body, Lists, OpenGamesOf;
    var o := w.Phase(t).Going();
    if o.Lock? {
      RegisterKeeps(w, t, o.game, o.body, ch.newRef);
    } else {
      var to := Free(w.sh, t, w.Served(t), o, ch);
      assert RunThread(w, t, ch).threads == w.threads[t := Thread(Out(to.pc), to.serving)];
      OtherStepKeeps(w, RunThread(w, t, ch), t);
    }
  }

  /** A goroutine inside a lock steps: it releases the lock, or stays inside. */
  lemma InsideLocks(w: World, t: Tid, ch: Choice)
    requires LockInv(w) && CanRun(w, t, ch) && w.Phase(t).Inside?
    ensures LockInv(RunThread(w, t, ch))
  {
    hide LockInv, Free, Body, Lists, Listed;
    var p := w.Phase(t);
    if p.Doing().LeaveLock? {
      ReleaseKeeps(w, t, p.Doing().out);
    } else {
      var to := Body(w.sh, t, p.InGame(), w.Served(t), p.Doing(), ch);
      assert RunThread(w, t, ch).threads == w.threads[t := Thread(Inside(p.InGame(), p.Ref(), to.pc), to.serving)];
      OtherStepKeeps(w, RunThread(w, t, ch), t);
    }
  }

  lemma RunLocks(w: World, t: Tid, ch: Choice)
    requires LockInv(w) && CanRun(w, t, ch)
    ensures LockInv(RunThread(w, t, ch))
  {
    hide LockInv, Free, Body, Lists, Listed, OpenGamesOf;
    match w.Phase(t)
    case Out(_) => OutsideLocks(w, t, ch);
    case Waiting(_, _, _) => AcquireKeeps(w, t);
    case Inside(_, _, _) => InsideLocks(w, t, ch);
    case Exiting(_, _, o) => UnregisterKeeps(w, t, o);
  }

  lemma StepLocks(w: World, e: Event)
    requires LockInv(w) && Enabled(w, e)
    requires forall t :: t in w.threads && t.Reader? ==> t.Mine() in w.sh.chan
    ensures LockInv(Step(w, e))
  {
    hide LockInv, RunThread, CanRun, Environment;
    match e
    case Go(t, ch) => RunLocks(w, t, ch);
    case NewConn(c) =>
      assert Reader(c).Mine() == c;
      EnvironmentLocks(w, Step(w, e), Reader(c));
    case _ => EnvironmentLocks(w, Step(w, e), Sweeper);
  }

  /** The rest of the program at most adds an idle goroutine. */
  lemma EnvironmentLocks(w: World, w': World, t: Tid)
    requires LockInv(w) && w'.locks == w.locks && w'.objs == w.objs
    requires w'.threads == w.threads
      || (t !in w.threads && w'.threads == w.threads[t := Thread(Out(Idle), Serving(0, false))])
    ensures LockInv(w')
  {
    forall g ensures Users(w', g) == Users(w, g) {
    }
    forall g, s ensures IsInside(w', s, g) <==> IsInside(w, s, g) {
    }
  }

  /** No two goroutines are inside the lock of one game. */
  lemma AtMostOneInside(w: World, s: Tid, t: Tid, g: GameId)
    requires LockInv(w) && IsInside(w, s, g) && IsInside(w, t, g)
    ensures s == t
  {
    assert w.objs[w.locks[g]].holder == Some(s);
    assert w.objs[w.locks[g]].holder == Some(t);
  }
}
