/** What the invariant means for the server: serialised changes, coherent views, agreement of store and registry. */
module ProtocolTheorems {
  import opened Wrappers
  import opened Rules
  import opened RulesRuns
  import opened Store
  import opened Registry
  import opened Protocol
  import opened ProtocolDoes
  import opened ProtocolLocks
  import opened ProtocolInvariant
  import opened ProtocolRely
  import opened ProtocolEffects
  import opened ProtocolStoreEffects
  import opened ProtocolBody
  import opened ProtocolNext
  import opened ProtocolSafety

  // ----- Mutual exclusion -----

  /**
   * In every reachable world, a game has a lock object in the table exactly while somebody uses it, everybody
   * who uses it has that object, its count is their number, and at most one of them is inside.
   */
  lemma MutualExclusion(w: World, g: GameId)
    requires Reached(w)
    ensures g in w.locks <==> Users(w, g) != {}
    ensures forall t :: t in Users(w, g) ==>
      var l := w.Phase(t).Ref(); Get(w.locks, g) == Some(l) && l in w.objs && w.Obj(l).refs == |Users(w, g)|
    ensures forall s, t :: IsInside(w, s, g) && IsInside(w, t, g) ==> s == t
  {
    hide Global, Justified, Reached;
    Always(w);
    forall s, t | IsInside(w, s, g) && IsInside(w, t, g) ensures s == t {
      AtMostOneInside(w, s, t, g);
    }
  }

  // ----- Serialised changes -----

  /** The attempts among some saves, in order. */
  function Attempts(commits: seq<Commit>): seq<Attempt> {
    if commits == [] then []
    else
      var last := commits[|commits| - 1];
      Attempts(commits[..|commits| - 1]) + (if last.Changed? then [last.attempt] else [])
  }

  /** The states of a faithful history are the runs of its attempts. */
  lemma {:induction false} HistoryIsRun(h: History, n: nat)
    requires Faithful(h) && n <= |h.commits|
    ensures h.states[n] == Run(h.states[0], Attempts(h.commits[..n]))
  {
    if n > 0 {
      HistoryIsRun(h, n - 1);
      var before := Attempts(h.commits[..n - 1]);
      assert h.commits[..n][..n - 1] == h.commits[..n - 1];
      assert h.states[n] == AfterCommit(h.states[n - 1], h.commits[n - 1]);
      if h.commits[n - 1].Changed? {
        assert Attempts(h.commits[..n])[..|before|] == before;
      } else {
        assert Attempts(h.commits[..n]) == before;
      }
    }
  }

  /**
   * Serialisability: under every interleaving, a stored game is exactly what its saves, applied one after the
   * other in the order they were committed, make of the state it started with.
   */
  lemma StoredGamesAreRuns(w: World, g: GameId, row: Game)
    requires Reached(w) && Get(w.sh.db.games, g) == Some(row)
    ensures row.state == Run(w.sh.Saves(g).Start(), Attempts(w.sh.Saves(g).commits))
  {
    hide LockInv, Justified, Reached, RegOk, SeatsHeld, LogsOk;
    Always(w);
    var h := w.sh.saves[g];
    assert Faithful(h) && h.commits[..|h.commits|] == h.commits;
    HistoryIsRun(h, |h.commits|);
  }

  /** A step keeps the state a game started with, and starts new games in the initial state. */
  ghost predicate BeginsFresh(sh: Shared, sh': Shared) {
    forall g: GameId :: g in sh'.saves ==>
      sh'.Saves(g).Start() == if g in sh.saves then sh.Saves(g).Start() else NewState()
  }

  lemma DoBeginsFresh(sh: Shared, e: Effect)
    requires Global(sh) && (match e case Found(g, _, _, _) => g !in sh.saves case _ => true)
    ensures BeginsFresh(sh, Do(sh, e))
  {
    hide RegOk, SeatsHeld, LogsOk, HistoriesOk, SaveGame, CreateGame, DeletePlayer, TouchPlayer, Bind, Forget, Attach,
        Detach, DetachSet, AddConn, Shared.Sent, Shared.Closed, Shared.Asked;
    if !e.Save? && !e.Found? {
      DoSaves(sh, e);
    }
  }

  lemma StepBeginsFresh(w: World, e: Event)
    requires Inv(w) && Enabled(w, e)
    ensures BeginsFresh(w.sh, Step(w, e).sh)
  {
    hide LockInv, Global, Justified, Step, CanRun, BeginsFresh;
    StepDo(w, e);
    OnlyFounds(w, e);
    DoBeginsFresh(w.sh, Does(w, e));
  }

  lemma OnlyFounds(w: World, e: Event)
    ensures match Does(w, e) case Found(g, host, digest, now) => e == NewGame(g, host, digest, now) case _ => true
  {
  }

  /** Games that were not stored in world v, where the server started, began in the initial state. */
  ghost predicate Fresh(v: World, w: World) {
    forall g: GameId :: g in w.sh.saves && g !in v.sh.saves ==> w.sh.Saves(g).Start() == NewState()
  }

  /** A game that was not stored when the server started began in the initial state. */
  lemma CreatedFresh(v: World, w: World, g: GameId)
    requires Init(v) && Leads(v, w) && g !in v.sh.db.games && g in w.sh.saves
    ensures w.sh.Saves(g).Start() == NewState()
  {
    assert v.sh.saves.Keys == v.sh.db.games.Keys;
    hide Init, LeadsBy, Enabled, Step, Inv, BeginsFresh, History.Start;
    InitInv(v);
    forall u, e | Inv(u) && Fresh(v, u) && Enabled(u, e) ensures Fresh(v, Step(u, e)) {
      StepBeginsFresh(u, e);
    }
    KeptBy(v, w, Any, u => Fresh(v, u));
  }

  /**
   * In every reachable world, the counters of every game created since the server started are the tallies of its
   * resolved rounds, and its status, throws and outcome fit together.
   */
  lemma StoredGamesKeepTheLedger(v: World, w: World, g: GameId, row: Game)
    requires Init(v) && Leads(v, w) && g !in v.sh.db.games && Get(w.sh.db.games, g) == Some(row)
    ensures
      var s, attempts := row.state, Attempts(w.sh.Saves(g).commits);
      && Consistent(s)
      && s.hostWins == Tally(Rounds(attempts), HostWon)
      && s.guestWins == Tally(Rounds(attempts), GuestWon)
      && s.draws == Tally(Rounds(attempts), Draw)
      && s.hostWins + s.guestWins + s.draws
         == AcceptedRematches(attempts) + (if s.outcome == WaitingForMoves then 0 else 1)
  {
    hide Init, Leads, Attempts, Inv;
    assert Reached(w);
    Always(w);
    StoredIsSaved(w, g);
    StoredGamesAreRuns(w, g, row);
    CreatedFresh(v, w, g);
    var attempts := Attempts(w.sh.Saves(g).commits);
    Ledger(attempts);
    CountersAddUp(attempts);
  }

  lemma StoredIsSaved(w: World, g: GameId)
    requires Inv(w)
    ensures g in w.sh.db.games ==> g in w.sh.saves
  {
    hide LockInv, Justified, RegOk, SeatsHeld, LogsOk, HistoriesOk;
  }

  /** A game's stored state stays, or changes by one legal attempt that is recorded as a save. */
  ghost predicate Legal(sh: Shared, sh': Shared, g: GameId) {
    match (sh.State(g), sh'.State(g))
    case (Some(s), Some(s')) =>
      || s' == s
      || (&& g in sh.saves && g in sh'.saves
          && exists a :: Apply(s, a) == Success(s') && sh'.Saves(g).commits == sh.Saves(g).commits + [Changed(a)])
    case _ => true
  }

  predicate SameState(sh: Shared, sh': Shared, g: GameId) {
    sh.State(g).Some? && sh'.State(g).Some? ==> sh'.State(g) == sh.State(g)
  }

  lemma DoLegal(sh: Shared, who: Option<Tid>, e: Effect, g: GameId)
    requires Global(sh) && Allowed(sh, who, Some(g), e)
    ensures Legal(sh, Do(sh, e), g)
  {
    hide Global, Sendable, MaySit, Apply, Bind, Forget, Attach, Detach, DetachSet, AddConn,
        Send, Close, SeatCopied;
    StoredSaved(sh, g);
  }

  lemma RelySame(sh: Shared, sh': Shared, who: Option<Tid>, lock: Option<GameId>, g: GameId)
    requires Rely(sh, sh', who, lock) && lock != Some(g)
    ensures SameState(sh, sh', g)
  {
    Unlocked(sh, sh', who, lock, g);
  }

  /**
   * No update is lost: whatever the interleaving, the stored state of a game changes only while its lock is held
   * by the goroutine that changes it, by one whole Join, PlayMove, Rematch, DeclineRematch or Close that succeeds
   * on the state stored at that very moment, and that is recorded as the next save.
   */
  lemma ChangesAreLegal(w: World, e: Event, g: GameId, s: State, s': State)
    requires Reached(w) && Enabled(w, e)
    requires w.sh.State(g) == Some(s) && Step(w, e).sh.State(g) == Some(s') && s' != s
    ensures match e case Go(t, _) => IsInside(w, t, g) case _ => false
    ensures
      && g in w.sh.saves && g in Step(w, e).sh.saves
      && exists a :: Apply(s, a) == Success(s')
           && Step(w, e).sh.Saves(g).commits == w.sh.Saves(g).commits + [Changed(a)]
  {
    hide Reached, Inv, Step, Enabled, Does, Do, Global, Allowed, Rely, Apply;
    Always(w);
    StepAllowed(w, e);
    StepDo(w, e);
    StepRely(w, e);
    if Holding(w, e) == Some(g) {
      DoLegal(w.sh, Mover(e), Does(w, e), g);
      HolderIsInside(w, e, g);
    } else {
      RelySame(w.sh, Step(w, e).sh, Mover(e), Holding(w, e), g);
    }
  }

  lemma HolderIsInside(w: World, e: Event, g: GameId)
    requires Enabled(w, e) && Holding(w, e) == Some(g)
    ensures match e case Go(t, _) => IsInside(w, t, g) case _ => false
  {
    hide ListsConns, CanPass;
  }

  // ----- Coherent views -----

  /**
   * Whenever nobody is inside the lock of a game and no snapshot of it failed to be built since its last
   * broadcast, the last snapshot of the game sent to each attached connection that is not closing shows exactly
   * the stored state.
   */
  lemma ViewsAreCoherent(w: World, g: GameId, c: ConnId)
    requires Reached(w) && LockFree(w, g) && g !in w.sh.stale && c in w.sh.reg.Attached(g) && !w.sh.Closing(c)
    ensures match LastAbout(w.sh.Log(c), g) case Some(snap) => w.sh.State(g) == Some(snap.Shows()) case None => false
  {
    hide Reached, LockInv, Global, Justified, LockFree;
    Always(w);
    UnlockedSettled(w, g);
    assert Informed(w.sh, g, c);
  }

  /**
   * At every instant, every snapshot ever sent shows a game as it was after some of its saves, and a connection
   * gets the snapshots of a game in the order of the saves they show.
   */
  lemma SnapshotsFollowCommits(w: World, c: ConnId)
    requires Reached(w)
    ensures InCommitOrder(w.sh.Log(c))
    ensures forall m, snap :: m in w.sh.Log(c) && SnapOf(m) == Some(snap) ==> Genuine(w.sh, snap)
  {
    hide Reached, LockInv, Justified, RegOk, DbOk, SeatsHeld, HistoriesOk, Genuine, InCommitOrder;
    Always(w);
    if c in w.sh.chan {
      assert ChanOk(w.sh, w.sh.chan[c]);
    } else {
      EmptyInOrder();
    }
  }

  // ----- Games that are over -----

  /** While nobody is inside its lock, a game that is CLOSED or deleted has no attached connection. */
  lemma FinishedGamesAreEmpty(w: World, g: GameId)
    requires Reached(w) && LockFree(w, g) && !Live(w.sh, g)
    ensures w.sh.reg.Attached(g) == {}
  {
    hide Reached, LockInv, Global, Justified, LockFree, Live;
    Always(w);
    UnlockedSettled(w, g);
  }

  /**
   * A game action that has passed its checks under the lock always finds an open row: withGame never misses it,
   * and leaving never fails.
   */
  lemma ActionsFindOpenGames(w: World, c: ConnId, g: GameId, i: InPc)
    requires Reached(w) && Reader(c) in w.threads && IsInside(w, Reader(c), g) && w.Phase(Reader(c)).Doing() == i
    requires i.ActLoad?
    ensures match w.sh.State(g) case Some(s) => s.status != Status.Closed && CloseGame(s).Success? case None => false
  {
    hide Reached, LockInv, Global, Justified, InOk;
    Always(w);
    PhaseOf(w, Reader(c));
    ActLoadOpen(w.sh, Reader(c), g, i);
  }

  lemma ActLoadOpen(sh: Shared, t: Tid, g: GameId, i: InPc)
    requires Global(sh) && InOk(sh, t, g, i) && i.ActLoad? && t.Mine() in sh.chan
    ensures Live(sh, g)
  {
    ActLoadAttached(sh, t, g, i);
    AttachedKnown(sh, g);
    hide Local, OutOk, Global, Informed;
  }

  // ----- The registry -----

  /**
   * At every instant: a connection is in the set of a game exactly when its own fields say so, no empty set is
   * kept, and a player's connection is authenticated as that player.
   */
  lemma IndexesAgree(w: World)
    requires Reached(w)
    ensures forall c, g: GameId :: c in w.sh.reg.link ==> (w.sh.Place(c).In(g) <==> c in w.sh.reg.Attached(g))
    ensures {} !in w.sh.reg.games.Values
    ensures forall p: PlayerId, c: ConnId ::
      Get(w.sh.reg.players, p) == Some(c) ==> c in w.sh.reg.link && w.sh.PlayerOn(c) == Some(p)
  {
    hide Reached, LockInv, Justified, DbOk, SeatsHeld, LogsOk, HistoriesOk;
    Always(w);
    var reg := w.sh.reg;
    forall c, g | c in reg.link ensures w.sh.Place(c).In(g) <==> c in reg.Attached(g) {
      assert reg.link[c].place.In(g) <==> c in reg.Attached(g);
    }
  }

  /** Goroutine t has finished. */
  predicate Finished(w: World, t: Tid) {
    t in w.threads && w.Phase(t) == Out(Done)
  }

  lemma DoneIsForgotten(sh: Shared, c: ConnId)
    requires Global(sh) && OutOk(sh, Reader(c), Done) && c in sh.chan
    ensures sh.reg.Forgotten(c)
  {
    hide DbOk, SeatsHeld, LogsOk, HistoriesOk;
    assert Reader(c).Mine() == c;
    forall g ensures c !in sh.reg.Attached(g) {
      assert sh.reg.link[c].place.In(g) <==> c in sh.reg.Attached(g);
    }
  }

  lemma StaysDone(w: World, e: Event, t: Tid)
    requires Inv(w) && Enabled(w, e) && Finished(w, t)
    ensures Finished(Step(w, e), t)
  {
    hide Inv, Free, Body, ListsGames, ListsConns, Environment, Rely;
    match e
    case Go(s, ch) => GoSteps(w, s, ch);
    case _ => EnvironmentOf(w, e);
  }

  /** Once a connection's reader has finished, no index mentions the connection at any later time. */
  lemma DisconnectedForGood(v: World, w: World, c: ConnId)
    requires Reached(v) && Leads(v, w) && Finished(v, Reader(c))
    ensures Finished(w, Reader(c)) && w.sh.reg.Forgotten(c)
  {
    hide Reached, LeadsBy, Enabled, Step, Inv, Finished;
    Always(v);
    forall u, e | Inv(u) && Finished(u, Reader(c)) && Enabled(u, e) ensures Finished(Step(u, e), Reader(c)) {
      StaysDone(u, e, Reader(c));
    }
    KeptBy(v, w, Any, u => Finished(u, Reader(c)));
    ForgottenOnceDone(w, c);
  }

  lemma ForgottenOnceDone(w: World, c: ConnId)
    requires Inv(w) && Finished(w, Reader(c))
    ensures w.sh.reg.Forgotten(c)
  {
    hide LockInv, Global, Justified, OutOk;
    PhaseOf(w, Reader(c));
    assert Reader(c).Mine() == c;
    DoneIsForgotten(w.sh, c);
  }

  /**
   * When a request is refused as not authenticated, already authenticated or not in a game, that is still so at the
   * moment the refusal is sent.
   */
  lemma RefusalsAreJustified(w: World, c: ConnId, code: Code)
    requires Reached(w) && Reader(c) in w.threads && w.Phase(Reader(c)) == Out(SendErr(code))
    ensures code == NotAuthenticated ==> w.sh.PlayerOn(c).None?
    ensures code == AlreadyAuthenticated ==> w.sh.PlayerOn(c).Some?
    ensures code == NotInGame ==> w.sh.PlayerOn(c).Some? && w.sh.Place(c) == Nowhere
  {
    hide Reached, LockInv, Global, Justified;
    Always(w);
    PhaseOf(w, Reader(c));
    assert Justifies(w.sh, c, code);
  }
}
