/**
 * Nobody waits for somebody who waits, and every step takes a goroutine closer to the end of what it is doing:
 * under any scheduling that lets everybody step, every request, disconnection and expiry completes.
 */
module ProtocolProgress {
  import opened Wrappers
  import opened Timestamps
  import opened Rules
  import opened Store
  import opened Registry
  import opened Protocol
  import opened ProtocolReached
  import opened ProtocolDoes
  import opened ProtocolLocks
  import opened ProtocolInvariant
  import opened ProtocolSafety
  import opened ProtocolRounds

  // ----- Nobody is stuck -----

  lemma ListingExists<X(!new)>(xs: set<X>) returns (s: seq<X>)
    ensures Lists(s, xs)
  {
    if xs == {} {
      s := [];
    } else {
      var x :| x in xs;
      var rest := ListingExists(xs - {x});
      s := rest + [x];
    }
  }

  lemma FreshRefExists(refs: set<LockRef>) returns (l: LockRef)
    ensures l !in refs && forall r :: r in refs ==> r < l
  {
    if refs == {} {
      l := 0;
    } else {
      var r :| r in refs;
      var above := FreshRefExists(refs - {r});
      l := if r < above then above else r + 1;
      assert refs == (refs - {r}) + {r};
    }
  }

  function SomeChoice(conns: seq<ConnId>, games: seq<GameId>, newRef: LockRef): Choice {
    var midnight := Civil(0, 1, 1, 0, 0, 0, 0);
    Choice(false, midnight, conns, games, newRef, SocketGone, ExpireGame(0, midnight))
  }

  /** A goroutine can step, unless it has finished or waits for a lock that somebody holds. */
  lemma CanStep(w: World, t: Tid) returns (ch: Choice)
    requires t in w.threads && w.Phase(t) != Out(Done)
    requires w.Phase(t).Waiting? ==> w.Phase(t).Ref() in w.objs && w.Obj(w.Phase(t).Ref()).holder.None?
    ensures CanRun(w, t, ch)
  {
    hide OpenGamesOf, Listed;
    var l := FreshRefExists(w.objs.Keys);
    var conns: seq<ConnId>, games: seq<GameId> := [], [];
    match w.Phase(t) {
      case Out(o) =>
        if o.ExpList? {
          games := ListingExists(OpenGamesOf(w.sh.db, o.player));
        }
      case Inside(g, _, i) =>
        match Listed(w.sh, t, g, i) {
          case Some(cs) => conns := ListingExists(cs);
          case None =>
        }
      case _ =>
    }
    ch := SomeChoice(conns, games, l);
  }

  /** Whoever waits for a lock waits for its holder, who is inside. */
  lemma HolderInside(w: World, t: Tid)
    requires LockInv(w) && t in w.threads && w.Phase(t).Waiting?
    ensures w.Phase(t).Ref() in w.objs
    ensures match w.Obj(w.Phase(t).Ref()).holder
      case Some(s) => IsInside(w, s, w.Phase(t).InGame())
      case None => LockFree(w, w.Phase(t).InGame())
  {
    hide Users;
    assert w.Obj(w.Phase(t).Ref()) == w.objs[w.locks[w.Phase(t).InGame()]];
  }

  /**
   * In every reachable world, an unfinished goroutine can step, or it waits for the lock of a game that another
   * goroutine is inside of, and that one can step.
   */
  lemma NobodyIsStuck(w: World, t: Tid)
    requires Reached(w) && t in w.threads && w.Phase(t) != Out(Done)
    ensures exists s, ch ::
      CanRun(w, s, ch) && (s == t || (w.Phase(t).Waiting? && IsInside(w, s, w.Phase(t).InGame())))
  {
    hide Reached, LockInv, Global, Justified, CanRun, LockFree;
    Always(w);
    if w.Phase(t).Waiting? {
      HolderInside(w, t);
      match w.Obj(w.Phase(t).Ref()).holder
      case Some(s) => var ch := CanStep(w, s);
      case None => var ch := CanStep(w, t);
    } else {
      var ch := CanStep(w, t);
    }
  }

  // ----- Every step descends -----

  /** Compared from left to right. */
  datatype Rank = Rank(level: nat, count: nat, stage: nat, rest: nat, step: nat)

  predicate Lower(a: Rank, b: Rank) {
    || a.level < b.level
    || (a.level == b.level && a.count < b.count)
    || (a.level == b.level && a.count == b.count && a.stage < b.stage)
    || (a.level == b.level && a.count == b.count && a.stage == b.stage && a.rest < b.rest)
    || (a.level == b.level && a.count == b.count && a.stage == b.stage && a.rest == b.rest && a.step < b.step)
  }

  function TriesLeft(tries: int): nat {
    if tries < ROUNDS then ROUNDS - tries else 0
  }

  function DetachLevel(k: Resume): nat {
    match k
    case Rest => 2
    case GoConnect(_, _, _) => 15
    case GoForget => 4
    case GoDelete(_, _) => 5
  }

  const CONNECTING := 11
  const EXPIRING := 8

  /** How much is left to do for a body that will continue it knows not where. */
  function StartRank(i: InPc): (nat, nat) {
    match i
    case DetachCheck(_, tries, k) => (DetachLevel(k), TriesLeft(tries))
    case ExpReload(_, todo, _) => (EXPIRING, |todo| + 1)
    case ExpSave(_, todo, _, _, _) => (EXPIRING, |todo| + 1)
    case ExpDetach(_, todo, _, _, _, _) => (EXPIRING, |todo| + 1)
    case GameLoad(_) => (3, 0)
    case GameDetach => (3, 0)
    case GameClose(_) => (3, 0)
    case GameDelete => (3, 0)
    case _ => (CONNECTING, 0)
  }

  function OutRank(o: OutPc): (nat, nat) {
    match o
    case Idle => (0, 0)
    case Done => (0, 0)
    case Dispatch(_) => (20, 0)
    case Gate(_) => (19, 0)
    case AuthCheck(_, _) => (18, 0)
    case AuthLoad(_, _) => (17, 0)
    case AuthTouch(_) => (16, 0)
    case AuthRegister(_) => (15, 0)
    case AuthReply(_) => (14, 0)
    case AuthNotify(_) => (13, 0)
    case AuthClose(_) => (12, 0)
    case ConnLoad(_, _) => (18, 0)
    case ConnPlayer(_, _) => (17, 0)
    case ConnCurrent(_, _, _) => (16, 0)
    case WithGame(_) => (18, 0)
    case SendErr(_) => (1, 0)
    case Lock(_, i) => StartRank(i)
    case DetachRead(_, tries, k) => (DetachLevel(k), TriesLeft(tries))
    case DiscClose => (5, 0)
    case DiscForget => (3, 0)
    case ExpLoad(_, _) => (10, 0)
    case ExpList(_) => (9, 0)
    case ExpNext(_, todo, _) => (EXPIRING, |todo|)
    case ExpConn(_, _) => (7, 0)
    case ExpClose(_, _, _) => (6, 0)
    case ExpDelete(_, _) => (4, 0)
  }

  /** How far a body is from releasing the lock. */
  function Stage(i: InPc): nat {
    match i
    case ConnReload(_, _) => 90
    case ConnSave(_, _, _, _) => 80
    case ConnAttach(_, _, _, _) => 70
    case ConnView(_, _, _, _, _) => 60
    case ConnList(_, _, _) => 50
    case ActCheck(_) => 90
    case ActLoad(_, _, _) => 85
    case ActSave(_, _, _, _) => 80
    case ActDetach(_, _, _) => 70
    case Tell(_, _, _) => 45
    case CastView(_, _) => 35
    case CastList(_, _) => 30
    case CloseView(_, _, _, _, _) => 40
    case CloseList(_, _, _, _, _, _) => 30
    case Sends(_, _, _, _, k) =>
      if k.ThenConnList? then 55 else if k.ThenTell? then 50 else if k.ThenBroadcast? then 40
      else if k.ThenClose? then 45 else 20
    case DetachCheck(_, _, _) => 90
    case ExpReload(_, _, _) => 90
    case ExpSave(_, _, _, _, _) => 80
    case ExpDetach(_, _, _, _, _, _) => 70
    case GameLoad(_) => 90
    case GameDetach => 80
    case GameClose(_) => 70
    case GameDelete => 60
    case LeaveLock(_) => 10
  }

  function InRank(i: InPc): Rank {
    var (level, count) := match Onward(i) case Some(o) => OutRank(o) case None => StartRank(i);
    var stage := (if Onward(i).Some? then 1001 else 100) + Stage(i);
    match i
    case Sends(todo, msgs, _, next, _) =>
      Rank(level, count, stage, |todo|, if next < |msgs| then |msgs| - next else 0)
    case GameClose(todo) => Rank(level, count, stage, |todo|, 0)
    case _ => Rank(level, count, stage, 0, 0)
  }

  function PhaseRank(phase: Phase): Rank {
    match phase
    case Out(o) =>
      var (level, count) := OutRank(o);
      Rank(level, count, if o.Lock? then 900 else if o.DetachRead? || o.ExpNext? then 950 else 0, 0, 0)
    case Waiting(_, _, i) => var (level, count) := StartRank(i); Rank(level, count, 800, 0, 0)
    case Inside(_, _, i) => InRank(i)
    case Exiting(_, _, o) => var (level, count) := OutRank(o); Rank(level, count, 1000, 0, 0)
  }

  lemma FreeDescends(sh: Shared, t: Tid, sv: Serving, o: OutPc, ch: Choice)
    requires !o.Idle? && !o.Done? && !o.Lock?
    ensures Lower(PhaseRank(Out(Free(sh, t, sv, o, ch).pc)), PhaseRank(Out(o)))
  {
    hide Load, Before, TouchPlayer, DeletePlayer, Bind, Forget, Shared.Sent, Shared.Closed, Shared.Asked;
  }

  /** A loop of sends has something to send, and a detach has tries left. */
  predicate SomethingLeft(i: InPc) {
    match i
    case Sends(_, msgs, _, next, _) => next < |msgs|
    case DetachCheck(_, tries, _) => tries < ROUNDS
    case _ => true
  }

  lemma SendsDescend(sh: Shared, t: Tid, g: GameId, sv: Serving, i: InPc, ch: Choice)
    requires i.Sends? && SomethingLeft(i)
    ensures Lower(InRank(Body(sh, t, g, sv, i, ch).pc), InRank(i))
  {
    hide OutRank, Shared.Sent, Rendered;
  }

  lemma CheckDescends(sh: Shared, t: Tid, g: GameId, sv: Serving, i: InPc, ch: Choice)
    requires i.DetachCheck? && SomethingLeft(i)
    ensures Lower(InRank(Body(sh, t, g, sv, i, ch).pc), InRank(i))
  {
    hide Detach;
  }

  lemma ConnectingDescends(sh: Shared, t: Tid, g: GameId, sv: Serving, i: InPc, ch: Choice)
    requires i.ConnReload? || i.ConnSave? || i.ConnAttach? || i.ConnView? || i.ConnList?
    ensures Lower(InRank(Body(sh, t, g, sv, i, ch).pc), InRank(i))
  {
    hide Load, Saved, JoinGame, Attach, Shared.View;
  }

  lemma ActingDescends(sh: Shared, t: Tid, g: GameId, sv: Serving, i: InPc, ch: Choice)
    requires i.ActCheck? || i.ActLoad? || i.ActSave? || i.ActDetach? || i.Tell? || i.CastView? || i.CastList?
    ensures Lower(InRank(Body(sh, t, g, sv, i, ch).pc), InRank(i))
  {
    hide Apply, AttemptOf, Saved, Detach, Shared.View, Shared.SeatsIn;
  }

  lemma ExpiringDescends(sh: Shared, t: Tid, g: GameId, sv: Serving, i: InPc, ch: Choice)
    requires i.ExpReload? || i.ExpSave? || i.ExpDetach? || i.CloseView? || i.CloseList?
    ensures Lower(InRank(Body(sh, t, g, sv, i, ch).pc), InRank(i))
  {
    hide Saved, DetachSet, Shared.View, Shared.SeatsIn, After;
  }

  lemma DeletingDescends(sh: Shared, t: Tid, g: GameId, sv: Serving, i: InPc, ch: Choice)
    requires i.GameLoad? || i.GameDetach? || i.GameClose? || i.GameDelete?
    ensures Lower(InRank(Body(sh, t, g, sv, i, ch).pc), InRank(i))
  {
    hide Before, DetachSet, DeleteGame, Shared.Closed;
  }

  lemma BodyDescends(sh: Shared, t: Tid, g: GameId, sv: Serving, i: InPc, ch: Choice)
    requires !i.LeaveLock? && SomethingLeft(i)
    ensures Lower(InRank(Body(sh, t, g, sv, i, ch).pc), InRank(i))
  {
    hide *;
    if i.Sends? {
      SendsDescend(sh, t, g, sv, i, ch);
    } else if i.DetachCheck? {
      CheckDescends(sh, t, g, sv, i, ch);
    } else if i.ConnReload? || i.ConnSave? || i.ConnAttach? || i.ConnView? || i.ConnList? {
      ConnectingDescends(sh, t, g, sv, i, ch);
    } else if i.ActCheck? || i.ActLoad? || i.ActSave? || i.ActDetach? || i.Tell? || i.CastView? || i.CastList? {
      ActingDescends(sh, t, g, sv, i, ch);
    } else if i.ExpReload? || i.ExpSave? || i.ExpDetach? || i.CloseView? || i.CloseList? {
      ExpiringDescends(sh, t, g, sv, i, ch);
    } else {
      DeletingDescends(sh, t, g, sv, i, ch);
    }
  }

  lemma LeftOf(w: World, t: Tid)
    requires Justified(w) && t in w.threads && Bounded(w, t)
    ensures match w.Phase(t) case Inside(_, _, i) => SomethingLeft(i) case _ => true
  {
    hide Justified, StartOk, CopyOk, MsgsOk, ThenOk, AttachedOk, ToldOk, OnwardOk, OutOk;
    PhaseOf(w, t);
  }

  /** What a goroutine begins under a lock ranks like waiting for it, but at an earlier stage. */
  lemma StartsBelow(i: InPc)
    requires Starting(i) && Onward(i) == None
    ensures Lower(InRank(i), Rank(StartRank(i).0, StartRank(i).1, 800, 0, 0))
  {
  }

  lemma LeavesBelow(o: OutPc)
    ensures Lower(Rank(OutRank(o).0, OutRank(o).1, 1000, 0, 0), InRank(LeaveLock(o)))
  {
    hide OutRank;
  }

  lemma GoDescends(w: World, t: Tid, ch: Choice)
    requires Justified(w) && CanRun(w, t, ch) && Bounded(w, t) && w.Phase(t) != Out(Idle)
    ensures Lower(PhaseRank(RunThread(w, t, ch).Phase(t)), PhaseRank(w.Phase(t)))
  {
    hide Justified, Bounded, Free, Body, OutOk, InOk, StartOk, InRank, Stage, SomethingLeft, ListsGames, ListsConns;
    PhaseOf(w, t);
    match w.Phase(t)
    case Out(o) =>
      if !o.Lock? {
        FreeDescends(w.sh, t, w.Served(t), o, ch);
      }
    case Waiting(g, _, i) =>
      StartsPlain(w.sh, t, g, i);
      StartsBelow(i);
    case Inside(g, _, i) =>
      if i.LeaveLock? {
        LeavesBelow(i.out);
      } else {
        LeftOf(w, t);
        BodyDescends(w.sh, t, g, w.Served(t), i, ch);
      }
    case Exiting(_, _, o) =>
  }

  /**
   * In every reachable world, a step of a busy goroutine takes it closer to the end of its work, and leaves every
   * other goroutine as close as it was.
   */
  lemma EveryStepDescends(w: World, e: Event, t: Tid)
    requires Reached(w) && Enabled(w, e) && t in w.threads && w.Phase(t) != Out(Idle)
    ensures t in Step(w, e).threads
    ensures
      if StepsBy(e, t) then Lower(PhaseRank(Step(w, e).Phase(t)), PhaseRank(w.Phase(t)))
      else Step(w, e).On(t) == w.On(t)
  {
    hide Reached, LockInv, Global, Justified, Bounded, CanRun, RunThread, PhaseRank, Lower, Environment;
    Always(w);
    AlwaysRounds(w);
    match e
    case Go(s, ch) =>
      RunThreads(w, s, ch);
      if s == t {
        GoDescends(w, t, ch);
      }
    case _ => StaysPut(w, e, t);
  }

  // ----- Every request ends -----

  predicate StepsBy(e: Event, t: Tid) {
    match e
    case Go(s, _) => s == t
    case _ => false
  }

  /** A run that never ends. */
  ghost predicate Endless(run: nat -> World, events: nat -> Event) {
    Init(run(0)) && forall k: nat :: Enabled(run(k), events(k)) && run(k + 1) == Step(run(k), events(k))
  }

  lemma {:induction false} EndlessReached(run: nat -> World, events: nat -> Event, k: nat)
    requires Endless(run, events)
    ensures Reached(run(k)) && Enabled(run(k), events(k))
  {
    hide Init, Enabled, Step, Reached;
    if k == 0 {
      InitReached(run(0));
    } else {
      EndlessReached(run, events, k - 1);
      assert run(k - 1 + 1) == Step(run(k - 1), events(k - 1));
      NextReached(run(k - 1), events(k - 1));
    }
  }

  /** Goroutine t waits for a frame or for the next sweep, or has finished. */
  predicate Rests(w: World, t: Tid) {
    t in w.threads && w.Phase(t) in {Out(Idle), Out(Done)}
  }

  /** Goroutine t is at work; it may wait for a game lock. */
  predicate Works(w: World, t: Tid) {
    t in w.threads && !Rests(w, t)
  }

  ghost predicate FreeLater(run: nat -> World, n: nat, g: GameId) {
    exists m: nat :: m >= n && LockFree(run(m), g)
  }

  /** From time k on, the lock of game g is free again and again. */
  ghost predicate FreeAgain(run: nat -> World, k: nat, g: GameId) {
    forall n: nat :: n >= k ==> FreeLater(run, n, g)
  }

  /** Goroutine t can go on as far as locks are concerned. */
  ghost predicate MayGoOn(run: nat -> World, k: nat, t: Tid) {
    Works(run(k), t) && (run(k).Phase(t).Waiting? ==> FreeAgain(run, k, run(k).Phase(t).InGame()))
  }

  ghost predicate StepsLater(events: nat -> Event, k: nat, t: Tid) {
    exists m: nat :: m >= k && StepsBy(events(m), t)
  }

  /**
   * The scheduler lets everybody who is at work and does not wait for a lock step some time, and locks do not starve:
   * whoever waits for a lock that is free again and again gets it.
   */
  ghost predicate Fair(run: nat -> World, events: nat -> Event) {
    forall k: nat, t :: MayGoOn(run, k, t) ==> StepsLater(events, k, t)
  }

  /** Until a goroutine steps, it stays where it is. */
  lemma FirstStep(run: nat -> World, events: nat -> Event, k: nat, t: Tid) returns (j: nat)
    requires Endless(run, events) && Works(run(k), t) && StepsLater(events, k, t)
    ensures j >= k && StepsBy(events(j), t) && Works(run(j), t) && run(j).On(t) == run(k).On(t)
  {
    hide Init, Enabled, Step, Reached, PhaseRank, Lower;
    var m: nat :| m >= k && StepsBy(events(m), t);
    j := k;
    while !StepsBy(events(j), t)
      invariant k <= j <= m && Works(run(j), t) && run(j).On(t) == run(k).On(t)
      decreases m - j
    {
      EndlessReached(run, events, j);
      EveryStepDescends(run(j), events(j), t);
      j := j + 1;
    }
  }

  /** A step of somebody inside a lock keeps it inside, or frees the lock. */
  lemma InsideStep(w: World, e: Event, s: Tid, g: GameId)
    requires Reached(w) && Enabled(w, e) && StepsBy(e, s) && IsInside(w, s, g)
    ensures IsInside(Step(w, e), s, g) || LockFree(Step(w, e), g)
  {
    hide Reached, LockInv, Global, Justified, Body, ListsConns;
    Always(w);
    match e
    case Go(t, ch) =>
      RunThreads(w, t, ch);
      if !IsInside(Step(w, e), s, g) {
        forall r ensures !IsInside(Step(w, e), r, g) {
          if IsInside(w, r, g) {
            OneInside(w, r, s, g);
          }
        }
      }
    case _ =>
  }

  /** Whoever is inside a lock frees it some time. */
  lemma {:induction false} HolderLeaves(run: nat -> World, events: nat -> Event, k: nat, s: Tid, g: GameId)
    returns (m: nat)
    requires Endless(run, events) && Fair(run, events) && IsInside(run(k), s, g)
    ensures m >= k && LockFree(run(m), g)
    decreases
      var r := PhaseRank(run(k).Phase(s)); r.level, PhaseRank(run(k).Phase(s)).count,
      PhaseRank(run(k).Phase(s)).stage, PhaseRank(run(k).Phase(s)).rest, PhaseRank(run(k).Phase(s)).step
  {
    hide Init, Enabled, Step, Reached, PhaseRank, LockFree, FreeAgain, StepsLater;
    assert MayGoOn(run, k, s);
    var j := FirstStep(run, events, k, s);
    EndlessReached(run, events, j);
    EveryStepDescends(run(j), events(j), s);
    InsideStep(run(j), events(j), s, g);
    m := j + 1;
    if !LockFree(run(m), g) {
      m := HolderLeaves(run, events, m, s, g);
    }
  }

  /** Whoever is at work steps some time: it runs, or waits for a lock that everybody who gets it frees again. */
  lemma StepsSomeTime(run: nat -> World, events: nat -> Event, k: nat, t: Tid)
    requires Endless(run, events) && Fair(run, events) && Works(run(k), t)
    ensures StepsLater(events, k, t)
  {
    hide Endless, StepsLater;
    var g := run(k).Phase(t).InGame();
    forall n: nat | n >= k ensures FreeLater(run, n, g) {
      if !LockFree(run(n), g) {
        var s :| IsInside(run(n), s, g);
        var m := HolderLeaves(run, events, n, s, g);
      }
    }
    assert MayGoOn(run, k, t);
  }

  lemma {:induction false} RestsAfter(run: nat -> World, events: nat -> Event, k: nat, t: Tid) returns (n: nat)
    requires Endless(run, events) && Fair(run, events) && t in run(k).threads
    ensures n >= k && Rests(run(n), t)
    decreases
      var r := PhaseRank(run(k).Phase(t)); r.level, PhaseRank(run(k).Phase(t)).count,
      PhaseRank(run(k).Phase(t)).stage, PhaseRank(run(k).Phase(t)).rest, PhaseRank(run(k).Phase(t)).step
  {
    hide Init, Enabled, Step, Reached, PhaseRank, Fair, StepsLater;
    n := k;
    if !Rests(run(k), t) {
      StepsSomeTime(run, events, k, t);
      var j := FirstStep(run, events, k, t);
      EndlessReached(run, events, j);
      EveryStepDescends(run(j), events(j), t);
      n := RestsAfter(run, events, j + 1, t);
    }
  }

  /**
   * Every request, disconnection and expiry completes: in every endless run under a fair scheduler, every goroutine
   * comes to rest again and again, whatever locks it has to wait for.
   */
  lemma EveryRequestEnds(run: nat -> World, events: nat -> Event, k: nat, t: Tid)
    requires Endless(run, events) && Fair(run, events) && t in run(k).threads
    ensures exists n: nat :: n >= k && Rests(run(n), t)
  {
    hide Endless, Fair;
    var n := RestsAfter(run, events, k, t);
  }
}
