/** A player is on one live connection at a time: whoever authenticates replaces the connection before it. */
module ProtocolPlayers {
  import opened Wrappers
  import opened Timestamps
  import opened Store
  import opened Registry
  import opened Protocol
  import opened ProtocolDoes
  import opened ProtocolLocks
  import opened ProtocolInvariant
  import opened ProtocolSafety

  /** The connection that a goroutine has replaced in the registry and has yet to close. */
  function Replacing(phase: Phase): Option<ConnId> {
    match phase
    case Out(AuthReply(prior)) => prior
    case Out(AuthNotify(prior)) => Some(prior)
    case Out(AuthClose(prior)) => Some(prior)
    case _ => None
  }

  /** Somebody is about to tell connection c that it has been replaced, and to close it. */
  ghost predicate BeingReplaced(w: World, c: ConnId) {
    exists t :: t in w.threads && Replacing(w.Phase(t)) == Some(c)
  }

  predicate Registered(sh: Shared, c: ConnId) {
    match sh.PlayerOn(c)
    case Some(p) => Get(sh.reg.players, p) == Some(c)
    case None => false
  }

  /** Every live authenticated connection is the registered one of its player, or is being replaced. */
  ghost predicate OneLive(w: World) {
    forall c :: c in w.sh.chan && w.sh.PlayerOn(c).Some? && !w.sh.Closing(c) ==>
      Registered(w.sh, c) || BeingReplaced(w, c)
  }

  /** A step binds no connection, forgets none and reopens none. */
  ghost predicate PlayersSame(sh: Shared, sh': Shared) {
    && sh'.reg.players == sh.reg.players
    && sh.chan.Keys <= sh'.chan.Keys
    && (forall c :: c in sh'.chan ==> sh'.PlayerOn(c) == sh.PlayerOn(c))
    && (forall c :: sh.Closing(c) ==> sh'.Closing(c))
    && (forall c :: c in sh'.chan && c !in sh.chan ==> sh'.PlayerOn(c).None?)
  }

  /** Only registering and forgetting concern who is authenticated. */
  lemma DoSame(sh: Shared, e: Effect)
    requires !e.Enter? && !e.Drop? && (match e case Meet(c) => c !in sh.chan && c !in sh.reg.link case _ => true)
    ensures PlayersSame(sh, Do(sh, e))
  {
    hide TouchPlayer, DeletePlayer, DeleteGame, SaveGame, CreateGame;
  }

  lemma SameKeepsOneLive(w: World, w': World)
    requires OneLive(w) && PlayersSame(w.sh, w'.sh)
    requires forall c: ConnId :: BeingReplaced(w, c) && !w'.sh.Closing(c) ==> BeingReplaced(w', c)
    ensures OneLive(w')
  {
    hide BeingReplaced;
  }

  /** Whoever was replacing a connection still is, or has closed it. */
  lemma StillReplaced(w: World, w': World)
    requires forall t, c: ConnId :: t in w.threads && Replacing(w.Phase(t)) == Some(c) ==>
      t in w'.threads && (Replacing(w'.Phase(t)) == Some(c) || w'.sh.Closing(c))
    ensures forall c: ConnId :: BeingReplaced(w, c) && !w'.sh.Closing(c) ==> BeingReplaced(w', c)
  {
    hide Replacing;
    forall c: ConnId | BeingReplaced(w, c) && !w'.sh.Closing(c) ensures BeingReplaced(w', c) {
      var s :| s in w.threads && Replacing(w.Phase(s)) == Some(c);
      assert s in w'.threads && Replacing(w'.Phase(s)) == Some(c);
    }
  }

  /** A step hands the replaced connection on until it is closed. */
  lemma GoReplaces(w: World, t: Tid, ch: Choice, c: ConnId)
    requires Justified(w) && CanRun(w, t, ch) && Replacing(w.Phase(t)) == Some(c)
    ensures var w' := RunThread(w, t, ch); Replacing(w'.Phase(t)) == Some(c) || w'.sh.Closing(c)
  {
    hide Justified, Gated, Load, Resumed, Before, Bind, Forget, TouchPlayer, DeletePlayer, Covers, StartOk, DetachOk,
        InOk, Body, ListsGames, ListsConns, Send;
    PhaseOf(w, t);
  }

  /** Registering replaces the player's connection before, if it is still registered. */
  lemma RegisterStep(w: World, w': World, t: Tid, p: PlayerId)
    requires OneLive(w) && t in w.threads && w.Phase(t) == Out(AuthRegister(p))
    requires t.Mine() in w.sh.chan && w.sh.PlayerOn(t.Mine()).None?
    requires w'.sh == w.sh.(reg := Bind(w.sh.reg, t.Mine(), p))
    requires w'.threads == w.threads[t := w'.On(t)] && w'.Phase(t) == Out(AuthReply(Get(w.sh.reg.players, p)))
    ensures OneLive(w')
  {
    StillReplaced(w, w');
    forall c | c in w'.sh.chan && w'.sh.PlayerOn(c).Some? && !w'.sh.Closing(c)
      ensures Registered(w'.sh, c) || BeingReplaced(w', c)
    {
      if c != t.Mine() {
        assert Registered(w.sh, c) || BeingReplaced(w, c);
        assert Registered(w.sh, c) && !Registered(w'.sh, c) ==> Replacing(w'.Phase(t)) == Some(c);
      }
    }
  }

  /** Only a connection that is closing is forgotten. */
  lemma ForgetStep(w: World, w': World, t: Tid)
    requires OneLive(w) && t in w.threads && w.Phase(t) == Out(DiscForget) && w.sh.Closing(t.Mine())
    requires w'.sh == w.sh.(reg := Forget(w.sh.reg, t.Mine())) && w'.threads == w.threads[t := w'.On(t)]
    ensures OneLive(w')
  {
    StillReplaced(w, w');
    forall c | c in w'.sh.chan && w'.sh.PlayerOn(c).Some? && !w'.sh.Closing(c)
      ensures Registered(w'.sh, c) || BeingReplaced(w', c)
    {
      assert Registered(w.sh, c) || BeingReplaced(w, c);
    }
  }

  lemma OtherStep(w: World, e: Event)
    requires OneLive(w) && Inv(w) && Enabled(w, e) && !Does(w, e).Enter? && !Does(w, e).Drop?
    ensures OneLive(Step(w, e))
  {
    hide LockInv, Global, PhaseOk, Settled, LockFree, OneLive, BeingReplaced, Does, Do, PlayersSame, Replacing,
        CanRun, RunThread, Environment;
    StepDo(w, e);
    Meets(w, e);
    DoSame(w.sh, Does(w, e));
    forall t, c | t in w.threads && Replacing(w.Phase(t)) == Some(c)
      ensures t in Step(w, e).threads && (Replacing(Step(w, e).Phase(t)) == Some(c) || Step(w, e).sh.Closing(c))
    {
      match e
      case Go(s, ch) =>
        if s == t {
          GoReplaces(w, t, ch, c);
        }
        RunThreads(w, s, ch);
      case _ =>
    }
    StillReplaced(w, Step(w, e));
    SameKeepsOneLive(w, Step(w, e));
  }

  lemma Meets(w: World, e: Event)
    requires Inv(w) && Enabled(w, e)
    ensures match Does(w, e) case Meet(c) => c !in w.sh.chan && c !in w.sh.reg.link case _ => true
  {
    hide LockInv, Justified, DbOk, SeatsHeld, LogsOk, HistoriesOk, CanRun;
  }

  lemma StepOneLive(w: World, e: Event)
    requires OneLive(w) && Inv(w) && Enabled(w, e)
    ensures OneLive(Step(w, e))
  {
    hide LockInv, Global, Justified, OneLive, Body, Bind, Forget, Environment, StartOk, InOk, ListsConns;
    match e
    case Go(t, ch) =>
      PhaseOf(w, t);
      match w.Phase(t) {
        case Out(AuthRegister(p)) => RegisterStep(w, Step(w, e), t, p);
        case Out(DiscForget) => ForgetStep(w, Step(w, e), t);
        case _ => OtherStep(w, e);
      }
    case _ => OtherStep(w, e);
  }

  lemma InitOneLive(w: World)
    requires Init(w)
    ensures OneLive(w)
  {
  }

  lemma AlwaysOneLive(w: World)
    requires Reached(w)
    ensures OneLive(w)
  {
    hide *;
    forall v | Init(v) ensures OneLive(v) {
      InitOneLive(v);
    }
    forall u, e | Inv(u) && OneLive(u) && Enabled(u, e) ensures OneLive(Step(u, e)) {
      StepOneLive(u, e);
    }
    AlwaysKept(w, OneLive);
  }

  /**
   * In every reachable world, every live authenticated connection is the registered one of its player, or has
   * been replaced by a connection whose reader is about to close it.
   */
  lemma LiveMeansRegistered(w: World, c: ConnId)
    requires Reached(w) && c in w.sh.chan && w.sh.PlayerOn(c).Some? && !w.sh.Closing(c)
    ensures Registered(w.sh, c) || BeingReplaced(w, c)
  {
    hide Reached, Registered, BeingReplaced;
    AlwaysOneLive(w);
  }

  /** Whenever nobody is replacing a connection, no two live connections belong to one player. */
  lemma OneLiveConnectionPerPlayer(w: World, c: ConnId, d: ConnId)
    requires Reached(w) && forall t :: t in w.threads ==> Replacing(w.Phase(t)).None?
    requires c in w.sh.chan && d in w.sh.chan && !w.sh.Closing(c) && !w.sh.Closing(d)
    requires w.sh.PlayerOn(c).Some? && w.sh.PlayerOn(c) == w.sh.PlayerOn(d)
    ensures c == d
  {
    hide Reached;
    AlwaysOneLive(w);
    assert Registered(w.sh, c) && Registered(w.sh, d);
  }
}
