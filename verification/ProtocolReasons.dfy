/**
 * Nothing happens without its reason: who is authenticated has shown the secret, answers are what the requests deserve,
 * games and players are deleted and connections closed as the requests and jobs in hand demand, and what the players of
 * a game are told has happened.
 */
module ProtocolReasons {
  import opened Wrappers
  import opened Timestamps
  import opened Rules
  import opened Store
  import opened Registry
  import opened Protocol
  import opened ProtocolDoes
  import opened ProtocolLocks
  import opened ProtocolInvariant
  import opened ProtocolRely
  import opened ProtocolStoreEffects
  import opened ProtocolNext
  import opened ProtocolSafety
  import opened ProtocolReplies
  import opened ProtocolRecall
  import opened ProtocolBacked
  import opened ProtocolBackedRuns

  // ----- Who is authenticated -----

  /** At step j, the reader of connection c finds the player that its request names stored with the secret presented. */
  ghost predicate ShowedSecret(run: nat -> World, events: nat -> Event, j: nat, c: ConnId, p: PlayerId) {
    match events(j)
    case Go(t, ch) =>
      && t == Reader(c) && !ch.fail
      && (match Recall(run, events, j, t).task
          case Some(Asked(_, Authenticate(q, digest))) => q == p && HasSecret(run(j).sh, p, digest)
          case _ => false)
    case _ => false
  }

  /** Only its own reader puts a connection on a player. */
  lemma DoEnters(sh: Shared, e: Effect, c: ConnId, p: PlayerId)
    requires Do(sh, e).PlayerOn(c) == Some(p) && sh.PlayerOn(c) != Some(p)
    ensures e == Enter(c, p)
  {
    hide SaveGame, CreateGame, TouchPlayer, DeletePlayer, DeleteGame, Send, Close;
  }

  lemma EntersAt(w: World, e: Event, c: ConnId, p: PlayerId)
    requires Inv(w) && Enabled(w, e) && Does(w, e) == Enter(c, p)
    ensures Mover(e) == Some(Reader(c)) && w.Phase(Reader(c)) == Out(AuthRegister(p)) && Reader(c) in w.threads
  {
    hide Inv, CanPass, ListsConns;
    hide Global, Allowed;
    match e
    case Go(t, ch) =>
      OutOnly(w, t);
    case _ =>
  }

  lemma OutOnly(w: World, t: Tid)
    requires Inv(w) && t in w.threads
    ensures w.Phase(t).Out? && w.Phase(t).Going().AuthRegister? ==> t == Reader(t.Mine())
  {
    hide LockInv, Global, InOk, StartOk, Justified;
    PhaseOf(w, t);
  }

  lemma GrantedEarlier(run: nat -> World, events: nat -> Event, k: nat, c: ConnId, p: PlayerId) returns (j: nat)
    requires
      var m := Recall(run, events, k, Reader(c));
      Authenticating(m, p) && Granting in m.found
    ensures j < k && ShowedSecret(run, events, j, c, p)
  {
    hide Recall, Does;
    var m := Recall(run, events, k, Reader(c));
    match m.task
    case Some(task) =>
      j := FoundEarlier(run, events, k, Reader(c), task, Granting);
      assert Reader(c).Mine() == c;
  }

  /**
   * A connection is authenticated as a player only if an earlier step of its own reader, serving a request to
   * authenticate as that player, found the player stored with exactly the secret that the request presented.
   */
  lemma {:induction false} AuthenticatedBySecret(run: nat -> World, events: nat -> Event, n: nat, k: nat, c: ConnId,
                                                 p: PlayerId)
    returns (j: nat)
    requires Runs(run, events, n) && k <= n && run(k).sh.PlayerOn(c) == Some(p)
    ensures j < k && ShowedSecret(run, events, j, c, p)
  {
    hide Enabled, Step, Init, Does, Do, Recall, ShowedSecret, Inv, Reached, Shared.PlayerOn, Authenticating;
    if k == 0 {
      NobodyAtFirst(run(0), c);
      assert false;
    } else if run(k - 1).sh.PlayerOn(c) == Some(p) {
      j := AuthenticatedBySecret(run, events, n, k - 1, c, p);
    } else {
      RunsReached(run, events, n, k - 1);
      Always(run(k - 1));
      StepDo(run(k - 1), events(k - 1));
      DoEnters(run(k - 1).sh, Does(run(k - 1), events(k - 1)), c, p);
      EntersAt(run(k - 1), events(k - 1), c, p);
      AlwaysBacked(run, events, n, k - 1, Reader(c));
      j := GrantedEarlier(run, events, k - 1, c, p);
    }
  }

  lemma NobodyAtFirst(w: World, c: ConnId)
    requires Init(w)
    ensures w.sh.PlayerOn(c) == None
  {
  }

  /** What the lookup of a player leads to. */
  predicate Refused(phase: Phase, code: Code) {
    phase == Out(SendErr(code))
  }

  /**
   * Authenticating is refused for invalid credentials exactly if the store worked and the player is missing or stored
   * with another secret than the request presents, and goes on exactly if the store worked and the secret is right.
   */
  lemma CredentialsDecide(run: nat -> World, events: nat -> Event, n: nat, k: nat, c: ConnId, p: PlayerId,
                          digest: Digest, ch: Choice)
    requires Runs(run, events, n) && k < n && events(k) == Go(Reader(c), ch)
    requires run(k).Phase(Reader(c)) == Out(AuthLoad(p, digest))
    ensures match Recall(run, events, k, Reader(c)).task
      case Some(Asked(_, a)) => a == Authenticate(p, digest)
      case _ => false
    ensures
      var next := run(k + 1).Phase(Reader(c));
      && (Refused(next, InvalidCredentials) <==> !ch.fail && !HasSecret(run(k).sh, p, digest))
      && (Refused(next, Internal) <==> ch.fail)
      && (next == Out(AuthTouch(p)) <==> !ch.fail && HasSecret(run(k).sh, p, digest))
  {
    hide Recall, Init, ListsGames, ListsConns, Inv;
    assert Enabled(run(k), events(k)) && run(k + 1) == Step(run(k), events(k));
    AlwaysBacked(run, events, n, k, Reader(c));
  }

  // ----- Answers -----

  /** The frame that connection c serves at step k is malformed, or step j, serving its request, met the reason. */
  ghost predicate DeservedAt(run: nat -> World, events: nat -> Event, j: nat, k: nat, c: ConnId, code: Code) {
    match Recall(run, events, k, Reader(c)).task
    case Some(Malformed) => code == BadRequest
    case Some(Asked(rid, a)) =>
      && FoundAt(run, events, j, k, Reader(c), Asked(rid, a), Refusing(code))
      && Deserves(run(j).sh, c, a, Fails(events(j)), code)
    case _ => false
  }

  /** The malformed frame, or something that an earlier step of serving the request met, is why it is refused. */
  lemma RefusalsHaveReasons(run: nat -> World, events: nat -> Event, n: nat, k: nat, c: ConnId, code: Code)
    returns (j: nat)
    requires Runs(run, events, n) && k <= n && Reader(c) in run(k).threads
    requires Refused(run(k).Phase(Reader(c)), code)
    ensures DeservedAt(run, events, j, k, c, code)
  {
    hide Recall, Does, Runs, Inv, Deserves;
    AlwaysBacked(run, events, n, k, Reader(c));
    j := 0;
    match Recall(run, events, k, Reader(c)).task
    case Some(Asked(rid, a)) =>
      j := FoundEarlier(run, events, k, Reader(c), Asked(rid, a), Refusing(code));
      assert Reader(c).Mine() == c;
    case _ =>
  }

  lemma ConfirmsGranted(sh: Shared, m: Memory, phase: Phase)
    requires Backed(sh, m, phase) && AboutToConfirm(phase)
    ensures Granted(m)
  {
    match phase
    case Inside(g, _, i) =>
      match i {
        case Sends(_, msgs, _, _, _) => assert msgs[0] in msgs && BackedMsg(m, g, msgs[0]);
      }
    case _ =>
  }

  /** Whatever is confirmed was to be granted when an earlier step of serving the request looked. */
  lemma ConfirmationsHaveReasons(run: nat -> World, events: nat -> Event, n: nat, k: nat, c: ConnId)
    returns (j: nat, rid: RequestId, a: Action)
    requires Runs(run, events, n) && k <= n && Reader(c) in run(k).threads && AboutToConfirm(run(k).Phase(Reader(c)))
    ensures FoundAt(run, events, j, k, Reader(c), Asked(rid, a), Granting)
    ensures Recall(run, events, k, Reader(c)).task == Some(Asked(rid, a))
    ensures Grants(run(j).sh, c, a, Fails(events(j)))
  {
    hide Recall, Does, Runs, Inv, Grants, Backed, AboutToConfirm;
    AlwaysBacked(run, events, n, k, Reader(c));
    var m := Recall(run, events, k, Reader(c));
    ConfirmsGranted(run(k).sh, m, run(k).Phase(Reader(c)));
    match m.task
    case Some(Asked(r, b)) =>
      rid, a := r, b;
      j := FoundEarlier(run, events, k, Reader(c), Asked(r, b), Granting);
      assert Reader(c).Mine() == c;
  }

  // ----- Deletions -----

  /** Only discarding a game takes its row away, and only removing a player takes the player's. */
  lemma DoDeletes(sh: Shared, e: Effect, g: GameId, p: PlayerId)
    ensures g in sh.db.games && g !in Do(sh, e).db.games ==> e == Discard(g)
    ensures p in sh.db.players && p !in Do(sh, e).db.players ==> e == Remove(p)
  {
    hide Bind, Forget, Attach, Detach, DetachSet, AddConn, Send, Close;
  }

  lemma DiscardsAt(w: World, e: Event, g: GameId)
    requires Inv(w) && Enabled(w, e) && Does(w, e) == Discard(g)
    ensures match e
      case Go(t, _) => IsInside(w, t, g) && w.Phase(t).Doing() == GameDelete && w.sh.reg.Attached(g) == {}
      case _ => false
  {
    hide Inv, CanPass, ListsConns, Local, Rely;
    match e
    case Go(t, ch) =>
      if w.Phase(t).Inside? {
        BodyOf(w, t, ch);
        DeleteEmpty(w.sh, t, w.Phase(t).InGame(), w.Phase(t).Doing());
      }
    case _ =>
  }

  lemma DeleteEmpty(sh: Shared, t: Tid, g: GameId, i: InPc)
    requires Local(sh, t, g, i) && i.GameDelete?
    ensures sh.reg.Attached(g) == {} && t == Sweeper
  {
    hide StartOk, CopyOk;
  }

  /**
   * A game is deleted only by the sweeper, under the game's lock, in a job to expire it whose cutoff is after the time
   * the game was active last, as the row says at that very step; nobody is attached to it then, and whoever the job
   * found attached is closing.
   */
  lemma GamesEndOverdue(run: nat -> World, events: nat -> Event, n: nat, k: nat, g: GameId)
    requires Runs(run, events, n) && k < n && g in run(k).sh.db.games && g !in run(k + 1).sh.db.games
    ensures Mover(events(k)) == Some(Sweeper) && IsInside(run(k), Sweeper, g) && run(k).sh.reg.Attached(g) == {}
    ensures match Recall(run, events, k, Sweeper).task
      case Some(Ending(h, cutoff)) => h == g && InactiveGame(run(k).sh, g, cutoff)
      case _ => false
    ensures forall j: nat, cutoff, d ::
      FoundAt(run, events, j, k, Sweeper, Ending(g, cutoff), Attached(d)) ==> run(k).sh.Closing(d)
  {
    hide Recall, Does, Do, Init, Inv, Enabled, Step, Before, FoundAt, Reached;
    assert Enabled(run(k), events(k)) && run(k + 1) == Step(run(k), events(k));
    RunsReached(run, events, n, k);
    Always(run(k));
    StepDo(run(k), events(k));
    DoDeletes(run(k).sh, Does(run(k), events(k)), g, 0);
    DiscardsAt(run(k), events(k), g);
    OnlySweeper(run(k), events(k), g);
    AlwaysBacked(run, events, n, k, Sweeper);
    forall j: nat, cutoff, d | FoundAt(run, events, j, k, Sweeper, Ending(g, cutoff), Attached(d))
      ensures run(k).sh.Closing(d)
    {
      FoundStays(run, events, j, k, Sweeper, Ending(g, cutoff), Attached(d));
    }
  }

  lemma OnlySweeper(w: World, e: Event, g: GameId)
    requires Inv(w) && Enabled(w, e) && Does(w, e) == Discard(g)
    ensures Mover(e) == Some(Sweeper) && Sweeper in w.threads
  {
    hide Inv, CanPass, ListsConns, Local, Rely;
    DiscardsAt(w, e, g);
    match e
    case Go(t, ch) =>
      BodyOf(w, t, ch);
      DeleteEmpty(w.sh, t, g, w.Phase(t).Doing());
    case _ =>
  }

  /** What a task has found is still found as long as it goes on. */
  lemma {:induction false} FoundStays(run: nat -> World, events: nat -> Event, j: nat, k: nat, t: Tid, task: Task,
                                      f: Finding)
    requires FoundAt(run, events, j, k, t, task, f)
    ensures Recall(run, events, k, t).task == Some(task) && f in Recall(run, events, k, t).found
  {
    hide Finds, TaskOf;
    if k - 1 > j {
      FoundStays(run, events, j, k - 1, t, task, f);
    }
  }

  lemma RemovesAt(w: World, e: Event, p: PlayerId)
    requires Inv(w) && Enabled(w, e) && Does(w, e) == Remove(p)
    ensures Mover(e) == Some(Sweeper) && Sweeper in w.threads
    ensures match w.Phase(Sweeper) case Out(ExpDelete(q, _)) => q == p case _ => false
  {
    hide LockInv, Global, InOk, StartOk, Justified, CanPass, ListsConns, Covers;
    match e
    case Go(t, ch) => PhaseOf(w, t);
    case _ =>
  }

  /** Step i of the job found the player without a connection, or with one that is closing by step k. */
  ghost predicate CutOffAt(run: nat -> World, events: nat -> Event, i: nat, k: nat, p: PlayerId, cutoff: Time) {
    || FoundAt(run, events, i, k, Sweeper, Expiring(p, cutoff), Unregistered)
    || exists d :: FoundAt(run, events, i, k, Sweeper, Expiring(p, cutoff), Registered(d)) && run(k).sh.Closing(d)
  }

  /**
   * A player is deleted only by the sweeper, in a job to expire the player in which an earlier step found the player
   * inactive since before the cutoff, and an earlier step found the player without a connection, or with one that is
   * closing now.
   */
  lemma PlayersEndInactive(run: nat -> World, events: nat -> Event, n: nat, k: nat, p: PlayerId)
    returns (j: nat, cutoff: Time)
    requires Runs(run, events, n) && k < n && p in run(k).sh.db.players && p !in run(k + 1).sh.db.players
    ensures Mover(events(k)) == Some(Sweeper) && Recall(run, events, k, Sweeper).task == Some(Expiring(p, cutoff))
    ensures FoundAt(run, events, j, k, Sweeper, Expiring(p, cutoff), Inactive)
    ensures InactivePlayer(run(j).sh, p, cutoff)
    ensures exists i: nat :: CutOffAt(run, events, i, k, p, cutoff)
  {
    hide Recall, Does, Do, Init, Inv, Enabled, Step, Before, FoundAt, Finds, Reached;
    assert Enabled(run(k), events(k)) && run(k + 1) == Step(run(k), events(k));
    RunsReached(run, events, n, k);
    Always(run(k));
    StepDo(run(k), events(k));
    DoDeletes(run(k).sh, Does(run(k), events(k)), 0, p);
    RemovesAt(run(k), events(k), p);
    AlwaysBacked(run, events, n, k, Sweeper);
    var m := Recall(run, events, k, Sweeper);
    match m.task
    case Some(Expiring(_, c)) =>
      cutoff := c;
      j := FoundEarlier(run, events, k, Sweeper, Expiring(p, c), Inactive);
      InactiveAt(run, events, j, k, p, c);
      if Unregistered in m.found {
        var i := FoundEarlier(run, events, k, Sweeper, Expiring(p, c), Unregistered);
        assert CutOffAt(run, events, i, k, p, c);
      } else {
        var d: ConnId :| Registered(d) in m.found && run(k).sh.Closing(d);
        var i := FoundEarlier(run, events, k, Sweeper, Expiring(p, c), Registered(d));
        assert CutOffAt(run, events, i, k, p, c);
      }
  }

  lemma InactiveAt(run: nat -> World, events: nat -> Event, j: nat, k: nat, p: PlayerId, cutoff: Time)
    requires FoundAt(run, events, j, k, Sweeper, Expiring(p, cutoff), Inactive)
    ensures InactivePlayer(run(j).sh, p, cutoff)
  {
    hide Recall, Does, Before;
  }

  /**
   * A job is done when the sweeper rests: an earlier step of it removed the player or the game, or found it missing or
   * active since the cutoff, or was hampered by the store.
   */
  lemma JobsAreDone(run: nat -> World, events: nat -> Event, n: nat, k: nat, task: Task) returns (j: nat, f: Finding)
    requires Runs(run, events, n) && k <= n && Sweeper in run(k).threads && run(k).Phase(Sweeper) == Out(Idle)
    requires Recall(run, events, k, Sweeper).task == Some(task) && (task.Expiring? || task.Ending?)
    ensures f in {Removed, Spared, Failing} && FoundAt(run, events, j, k, Sweeper, task, f)
  {
    hide Recall, Inv, Runs, FoundAt, Backed;
    AlwaysBacked(run, events, n, k, Sweeper);
    var m := Recall(run, events, k, Sweeper);
    RestIsFinished(run(k).sh, m);
    f := if Removed in m.found then Removed else if Spared in m.found then Spared else Failing;
    j := FoundEarlier(run, events, k, Sweeper, task, f);
  }

  lemma RestIsFinished(sh: Shared, m: Memory)
    requires Backed(sh, m, Out(Idle))
    ensures Finished(m)
  {
    hide BackedStart, BackedResume, BackedRefusal, Cut;
  }

  // ----- Close codes -----

  /** Only a close with its code gives a connection a code, but for a full queue. */
  lemma DoCloses(sh: Shared, e: Effect, d: ConnId, code: int)
    requires sh.Code(d) == None && Do(sh, e).Code(d) == Some(code) && code != CLOSE_SLOW_CONSUMER
    ensures e == Shut(d, code)
  {
    hide Bind, Forget, Attach, Detach, DetachSet, AddConn, SaveGame, CreateGame, TouchPlayer, DeletePlayer, DeleteGame;
  }

  /** What a goroutine that closes connection d with a code does it for. */
  ghost predicate ClosesFor(sh: Shared, t: Tid, m: Memory, d: ConnId, code: int) {
    if code == CLOSE_NORMAL then t == Reader(d) && m.task == Some(Gone)
    else if code == CLOSE_REPLACED then t.Reader? && t != Reader(d) && Replacing(m) && Granting in m.found
        && Registered(d) in m.found
    else if code == CLOSE_PLAYER_EXPIRED then
      t == Sweeper && Inactive in m.found && Registered(d) in m.found
      && (match m.task case Some(Expiring(_, _)) => true case _ => false)
    else
      code == CLOSE_GAME_EXPIRED && t == Sweeper && Attached(d) in m.found
      && (match m.task case Some(Ending(g, cutoff)) => InactiveGame(sh, g, cutoff) case _ => false)
  }

  lemma OutCloses(w: World, t: Tid, o: OutPc, ch: Choice, m: Memory, d: ConnId, code: int)
    requires OutOk(w.sh, t, o) && BackedOut(w.sh, m, o) && FreeDoes(w.sh, t, w.Served(t), o, ch) == Shut(d, code)
    ensures ClosesFor(w.sh, t, m, d, code)
  {
    hide StartOk, DetachOk, Covers, BackedStart, BackedResume, BackedRefusal, Cut;
    assert t.Reader? ==> t == Reader(t.Mine());
  }

  lemma InCloses(w: World, t: Tid, g: GameId, i: InPc, ch: Choice, m: Memory, d: ConnId, code: int)
    requires Local(w.sh, t, g, i) && BackedIn(w.sh, m, g, i) && BodyDoes(w.sh, t, g, i, ch) == Shut(d, code)
    ensures ClosesFor(w.sh, t, m, d, code)
  {
    match i
    case GameClose(todo) =>
      assert todo[0] in todo;
      hide StartOk, CopyOk, BackedOut, BackedMsg, BackedOver, Before, Evicted;
  }

  /**
   * A connection gets a close code for its reason: 1000 when its own socket has failed or the server shuts down, 4001
   * from the timer, 4000 from a request to authenticate that was granted and found it registered for the player, 4002
   * from a job that found a player inactive and the connection registered for the player, 4003 from a job whose game is
   * inactive since before the cutoff at that very step, and that found the connection attached.
   */
  lemma CloseCodesHaveReasons(run: nat -> World, events: nat -> Event, n: nat, k: nat, d: ConnId, code: int)
    requires Runs(run, events, n) && k < n && run(k).sh.Code(d) == None && run(k + 1).sh.Code(d) == Some(code)
    ensures match events(k)
      case Go(t, _) => code == CLOSE_SLOW_CONSUMER || ClosesFor(run(k).sh, t, Recall(run, events, k, t), d, code)
      case ForceClose(c, given) => c == d && given == code && code in {CLOSE_NORMAL, CLOSE_AUTH_TIMEOUT}
      case _ => false
  {
    hide Recall, Does, Do, Init, Inv, Enabled, Step, Reached, ClosesFor;
    assert Enabled(run(k), events(k)) && run(k + 1) == Step(run(k), events(k));
    RunsReached(run, events, n, k);
    Always(run(k));
    StepDo(run(k), events(k));
    if code != CLOSE_SLOW_CONSUMER {
      DoCloses(run(k).sh, Does(run(k), events(k)), d, code);
      StepShuts(run(k), events(k), d, code);
      match events(k)
      case Go(t, ch) =>
        AlwaysBacked(run, events, n, k, t);
        GoCloses(run(k), t, ch, Recall(run, events, k, t), d, code);
      case _ =>
    } else {
      SlowCloses(run(k), events(k), d);
    }
  }

  lemma StepShuts(w: World, e: Event, d: ConnId, code: int)
    requires Enabled(w, e) && Does(w, e) == Shut(d, code)
    ensures match e
      case Go(t, _) => t in w.threads
      case ForceClose(c, given) => c == d && given == code && code in {CLOSE_NORMAL, CLOSE_AUTH_TIMEOUT}
      case _ => false
  {
    hide CanPass, ListsConns, FreeDoes, BodyDoes;
  }

  /** Only a goroutine's message closes a connection as slow. */
  lemma SlowCloses(w: World, e: Event, d: ConnId)
    requires Enabled(w, e) && w.sh.Code(d) == None && Do(w.sh, Does(w, e)).Code(d) == Some(CLOSE_SLOW_CONSUMER)
    ensures e.Go?
  {
    hide CanRun, CreateGame, AddConn;
  }

  lemma GoCloses(w: World, t: Tid, ch: Choice, m: Memory, d: ConnId, code: int)
    requires Inv(w) && t in w.threads && Backed(w.sh, m, w.Phase(t)) && Does(w, Go(t, ch)) == Shut(d, code)
    ensures ClosesFor(w.sh, t, m, d, code)
  {
    hide LockInv, Global, Justified, FreeDoes, BodyDoes, OutOk, InOk, StartOk, Local, BackedOut, BackedIn, BackedStart,
        BackedGoing, ClosesFor;
    PhaseOf(w, t);
    match w.Phase(t)
    case Out(o) => OutCloses(w, t, o, ch, m, d, code);
    case Inside(g, _, i) =>
      LocalOf(w.sh, t, g, i);
      InCloses(w, t, g, i, ch, m, d, code);
    case _ =>
  }

  // ----- What the players are told -----

  /** Messages under a lock are rendered for their receivers, which does not change what events tell. */
  lemma TellsFound(sh: Shared, t: Tid, g: GameId, i: InPc, ch: Choice, m: Memory, d: ConnId, msg: Msg)
    requires BackedIn(sh, m, g, i) && BodyDoes(sh, t, g, i, ch) == Say(d, msg)
    ensures BackedMsg(m, g, msg)
  {
    match i
    case Sends(todo, msgs, seats, next, _) =>
      assert msgs[next] in msgs;
      hide BackedOut, BackedOver, BackedThen;
  }

  /**
   * Whatever a goroutine sends under the lock of a game tells what its task has found there: `ok` what was to be
   * granted, the event of a rematch or of its refusal what has been saved for that seat, the end of the game whose
   * leaving or expiry closed it, coming and going whose connection came or went.
   */
  lemma EventsHaveReasons(run: nat -> World, events: nat -> Event, n: nat, k: nat, t: Tid, ch: Choice, g: GameId,
                          d: ConnId, msg: Msg)
    requires Runs(run, events, n) && k < n && events(k) == Go(t, ch) && IsInside(run(k), t, g)
    requires Does(run(k), events(k)) == Say(d, msg)
    ensures BackedMsg(Recall(run, events, k, t), g, msg)
  {
    hide Recall, Inv, BackedMsg, BackedOut, BackedIn, BodyDoes, FreeDoes, Init;
    AlwaysBacked(run, events, n, k, t);
    TellsFound(run(k).sh, t, g, run(k).Phase(t).Doing(), ch, Recall(run, events, k, t), d, msg);
  }

  // ----- What is saved -----

  /** The save is of the action's own attempt, from the seat of connection c in game g. */
  predicate ActsFrom(sh: Shared, c: ConnId, g: GameId, a: Action, commit: Commit) {
    match sh.Place(c)
    case At(h, seat) => h == g && commit == Changed(AttemptOf(a, seat))
    case Nowhere => false
  }

  /** What a goroutine that saves game g does it for. */
  ghost predicate SavesFor(sh: Shared, t: Tid, m: Memory, g: GameId, actor: Option<PlayerId>, commit: Commit) {
    match m.task
    case Some(Asked(_, a)) =>
      && t.Reader? && Granting in m.found && actor.Some? && sh.PlayerOn(t.Mine()) == actor
      && (match a
          case Connect(h, _) => h == g && commit in {Reconnected, Changed(Join)}
          case _ => a.NeedsGame() && ActsFrom(sh, t.Mine(), g, a, commit))
    case Some(Expiring(p, _)) =>
      && t == Sweeper && Inactive in m.found && actor == None && commit == Changed(Leave)
      && exists seat :: Sits(g, seat) in m.found
    case _ => false
  }

  lemma BodySaves(sh: Shared, t: Tid, g: GameId, i: InPc, ch: Choice, m: Memory)
    requires Local(sh, t, g, i) && BackedIn(sh, m, g, i)
    ensures match BodyDoes(sh, t, g, i, ch)
      case Save(h, _, actor, _, commit, _) => h == g && SavesFor(sh, t, m, g, actor, commit)
      case _ => true
  {
    hide AttemptOf, BackedOut, BackedResume, BackedMsg, BackedOver, RowOk, StartOk, SeatCopied, Apply, JoinGame,
        CloseGame, Covers;
  }

  /**
   * Every save of a game is for its task: a connection's request to connect to the game, a game action from the
   * connection's own seat, or the expiry of an inactive player who sits in it.
   */
  lemma SavesHaveReasons(run: nat -> World, events: nat -> Event, n: nat, k: nat, t: Tid, ch: Choice)
    requires Runs(run, events, n) && k < n && events(k) == Go(t, ch)
    ensures match Does(run(k), events(k))
      case Save(g, _, actor, _, commit, _) =>
        IsInside(run(k), t, g) && SavesFor(run(k).sh, t, Recall(run, events, k, t), g, actor, commit)
      case _ => true
  {
    hide Recall, Inv, SavesFor, BackedOut, BackedIn, BodyDoes, Init, Local, Rely;
    AlwaysBacked(run, events, n, k, t);
    if run(k).Phase(t).Inside? {
      BodyOf(run(k), t, ch);
      BodySaves(run(k).sh, t, run(k).Phase(t).InGame(), run(k).Phase(t).Doing(), ch, Recall(run, events, k, t));
    }
  }

  /** What game actions do to a state that lets them, from a seat. */
  predicate ActsOn(s: State, s': State, seat: Seat, a: Action) {
    match a
    case Play(m) =>
      && s.status == Active && s.MoveOf(seat) == Pending && m == Some(s'.MoveOf(seat)) && m != Some(Pending)
      && s'.MoveOf(seat.Other()) == s.MoveOf(seat.Other())
    case DoRematch =>
      if s.status == Complete
      then s' == s.(status := s'.status) && s'.RematchIssuer() == Some(seat)
      else
        && s.RematchIssuer() == Some(seat.Other())
        && s' == s.(status := Active, outcome := WaitingForMoves, hostMove := Pending, guestMove := Pending)
    case DoDecline => s.RematchIssuer() == Some(seat.Other()) && s' == s.(status := Complete)
    case DoLeave => s.status != Status.Closed && s' == s.(status := Status.Closed)
    case _ => false
  }

  /** A game action does what its name says, or the rules refuse it. */
  lemma ActionsDoWhatTheySay(s: State, seat: Seat, a: Action)
    requires a.NeedsGame()
    ensures match Apply(s, AttemptOf(a, seat))
      case Success(s') => ActsOn(s, s', seat, a)
      case Failure(_) => true
  {
  }
}
