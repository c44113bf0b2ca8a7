/** Every step leads to a control state that is backed, and leaves those of the others backed. */
module ProtocolBackedSteps {
  import opened Wrappers
  import opened Timestamps
  import opened Rules
  import opened Store
  import opened Registry
  import opened Protocol
  import opened ProtocolDoes
  import opened ProtocolLocks
  import opened ProtocolInvariant
  import opened ProtocolRecall
  import opened ProtocolBacked

  /** The memory after a step of goroutine t keeps what it found, and has what the step finds. */
  ghost predicate Grows(w: World, t: Tid, ch: Choice, m: Memory, m': Memory) {
    && m'.task == m.task && m.found <= m'.found
    && match m.task
       case Some(task) => forall f :: Finds(w, t, ch, task, f) ==> f in m'.found
       case None => true
  }

  /** The memory after a step of one's own that begins nothing. */
  ghost function More(w: World, t: Tid, ch: Choice, m: Memory): Memory {
    Memory(m.task, m.found + FindingsOf(w, t, ch, m.task))
  }

  lemma MoreGrows(w: World, t: Tid, ch: Choice, m: Memory)
    ensures Grows(w, t, ch, m, More(w, t, ch, m))
  {
    hide Finds;
  }

  /** Findings are not lost, and closing is for good. */
  ghost predicate Onward(sh: Shared, sh': Shared, m: Memory, m': Memory) {
    m'.task == m.task && m.found <= m'.found && forall c :: sh.Closing(c) ==> sh'.Closing(c)
  }

  lemma StartStays(m: Memory, m': Memory, g: GameId, i: InPc)
    requires m'.task == m.task && m.found <= m'.found && !i.GameLoad? && BackedStart(m, g, i)
    ensures BackedStart(m', g, i)
  {
  }

  lemma GoingStays(sh: Shared, sh': Shared, m: Memory, m': Memory, o: OutPc)
    requires Onward(sh, sh', m, m') && BackedGoing(sh, m, o)
    ensures BackedGoing(sh', m', o)
  {
    hide BackedStart, Shared.Closing;
    match o
    case Lock(g, i) => StartStays(m, m', g, i);
    case _ =>
  }

  lemma MsgStays(m: Memory, m': Memory, g: GameId, msg: Msg)
    requires m'.task == m.task && m.found <= m'.found && BackedMsg(m, g, msg)
    ensures BackedMsg(m', g, msg)
  {
  }

  lemma OverStays(m: Memory, m': Memory, g: GameId, reason: Reason, side: Seat)
    requires m'.task == m.task && m.found <= m'.found && BackedOver(m, g, reason, side)
    ensures BackedOver(m', g, reason, side)
  {
  }

  // ----- Steps outside game locks -----

  lemma IdleBacked(sh: Shared, t: Tid, sv: Serving, ch: Choice)
    ensures
      var to := Free(sh, t, sv, Idle, ch);
      BackedOut(to.sh, Memory(Some(TaskOf(t, ch)), iset{}), to.pc)
  {
  }

  lemma Met(w: World, t: Tid, ch: Choice, m: Memory, m': Memory, task: Task, f: Finding)
    requires Grows(w, t, ch, m, m') && m.task == Some(task) && Finds(w, t, ch, task, f)
    ensures f in m'.found
  {
    hide Finds;
  }

  lemma Kept(w: World, t: Tid, ch: Choice, m: Memory, m': Memory)
    requires Grows(w, t, ch, m, m')
    ensures m'.task == m.task && m.found <= m'.found
  {
    hide Finds;
  }

  /** A refusal that the request deserves at this step. */
  lemma Deserved(w: World, t: Tid, ch: Choice, m: Memory, m': Memory, rid: RequestId, a: Action, code: Code)
    requires Grows(w, t, ch, m, m') && m.task == Some(Asked(rid, a)) && Deserves(w.sh, t.Mine(), a, ch.fail, code)
    ensures BackedRefusal(m', code)
  {
    hide Deserves;
    Met(w, t, ch, m, m', Asked(rid, a), Refusing(code));
    Kept(w, t, ch, m, m');
  }

  lemma DispatchBacked(w: World, t: Tid, a: Action, ch: Choice, m: Memory, m': Memory)
    requires BackedOut(w.sh, m, Dispatch(a)) && Grows(w, t, ch, m, m')
    ensures var to := Free(w.sh, t, w.Served(t), Dispatch(a), ch); BackedOut(to.sh, m', to.pc)
  {
    hide Grows, Deserves, Shared.Asked, BackedRefusal;
    Kept(w, t, ch, m, m');
    match m.task
    case Some(Asked(rid, b)) =>
      if a.Unknown? {
        UnknownDeserved(w.sh, t.Mine(), ch.fail);
        Deserved(w, t, ch, m, m', rid, a, UnknownAction);
      }
  }

  lemma UnknownDeserved(sh: Shared, c: ConnId, fail: bool)
    ensures Deserves(sh, c, Unknown, fail, UnknownAction)
  {
  }

  /** What the gate refuses, it refuses deservedly. */
  lemma GateDecides(sh: Shared, c: ConnId, a: Action, fail: bool)
    requires a != Unknown
    ensures match Gated(sh, c, a)
      case SendErr(code) => Deserves(sh, c, a, fail, code)
      case AuthCheck(p, digest) => a == Authenticate(p, digest)
      case ConnLoad(g, digest) => a == Connect(g, digest)
      case WithGame(b) => b == a
      case _ => false
  {
    hide Breaks, Excludes, Bereft;
  }

  lemma GateBacked(w: World, t: Tid, a: Action, ch: Choice, m: Memory, m': Memory)
    requires BackedOut(w.sh, m, Gate(a)) && Grows(w, t, ch, m, m') && !a.Unknown?
    ensures var to := Free(w.sh, t, w.Served(t), Gate(a), ch); BackedOut(to.sh, m', to.pc)
  {
    hide Grows, Deserves, Gated, BackedRefusal;
    Kept(w, t, ch, m, m');
    GateDecides(w.sh, t.Mine(), a, ch.fail);
    match m.task
    case Some(Asked(rid, _)) =>
      match Gated(w.sh, t.Mine(), a)
      case SendErr(code) => Deserved(w, t, ch, m, m', rid, a, code);
      case _ =>
  }

  lemma FieldsBacked(w: World, t: Tid, o: OutPc, ch: Choice, m: Memory, m': Memory)
    requires OutOk(w.sh, t, o) && BackedOut(w.sh, m, o) && Grows(w, t, ch, m, m')
    requires o.AuthCheck? || o.WithGame? || o.SendErr? || o.Done?
    ensures var to := Free(w.sh, t, w.Served(t), o, ch); BackedOut(to.sh, m', to.pc)
  {
    hide Grows, StartOk, Breaks, Excludes, Bereft, Shared.Sent;
    Kept(w, t, ch, m, m');
    match m.task
    case Some(Asked(rid, a)) =>
      if o.AuthCheck? && w.sh.PlayerOn(t.Mine()).Some? {
        Deserved(w, t, ch, m, m', rid, a, AlreadyAuthenticated);
      } else if o.WithGame? && w.sh.Place(t.Mine()) == Nowhere {
        Deserved(w, t, ch, m, m', rid, a, NotInGame);
      }
    case _ =>
  }

  /** Looking a player up refuses whoever has another secret, and nobody else; the store may fail. */
  lemma AuthLoadBacked(w: World, t: Tid, p: PlayerId, digest: Digest, ch: Choice, m: Memory, m': Memory)
    requires BackedOut(w.sh, m, AuthLoad(p, digest)) && Grows(w, t, ch, m, m')
    ensures var to := Free(w.sh, t, w.Served(t), AuthLoad(p, digest), ch); BackedOut(to.sh, m', to.pc)
  {
    hide Grows, BackedRefusal, FindsSeat, Does, Breaks, Excludes, Bereft;
    Kept(w, t, ch, m, m');
    match m.task
    case Some(Asked(rid, a)) =>
      if ch.fail {
        Deserved(w, t, ch, m, m', rid, a, Internal);
      } else if HasSecret(w.sh, p, digest) {
        Met(w, t, ch, m, m', Asked(rid, a), Granting);
      } else {
        Deserved(w, t, ch, m, m', rid, a, InvalidCredentials);
      }
  }

  lemma AuthBacked(w: World, t: Tid, o: OutPc, ch: Choice, m: Memory, m': Memory)
    requires BackedOut(w.sh, m, o) && Grows(w, t, ch, m, m') && OutOk(w.sh, t, o)
    requires o.AuthTouch? || o.AuthRegister? || o.AuthReply? || o.AuthNotify? || o.AuthClose?
    ensures var to := Free(w.sh, t, w.Served(t), o, ch); BackedOut(to.sh, m', to.pc)
  {
    hide Grows, StartOk, BackedRefusal, Deserves, Grants, FindsSeat, Does, TouchPlayer, Bind, Shared.Sent,
        Shared.Closed;
    Kept(w, t, ch, m, m');
    match m.task
    case Some(Asked(rid, a)) =>
      match o {
        case AuthTouch(_) =>
          if ch.fail {
            FailureDeserved(w.sh, t.Mine(), a);
            Deserved(w, t, ch, m, m', rid, a, Internal);
          }
        case AuthRegister(p) =>
          match Get(w.sh.reg.players, p) {
            case Some(d) => Met(w, t, ch, m, m', Asked(rid, a), Registered(d));
            case None =>
          }
        case _ =>
      }
    case _ =>
  }

  lemma FailureDeserved(sh: Shared, c: ConnId, a: Action)
    ensures Deserves(sh, c, a, true, Internal)
  {
  }

  /**
   * Looking a game up refuses whoever has another secret, and everybody once the game is closed; the store may fail.
   */
  lemma LoadDecides(sh: Shared, c: ConnId, g: GameId, digest: Digest, fail: bool)
    ensures match Load(sh, g, digest, fail)
      case Failure(code) => Deserves(sh, c, Connect(g, digest), fail, code)
      case Success(row) =>
        !fail && Get(sh.db.games, g) == Some(row) && row.digest == digest && row.state.status != Status.Closed
  {
    hide Breaks, Bereft;
  }

  lemma ConnBacked(w: World, t: Tid, o: OutPc, ch: Choice, m: Memory, m': Memory)
    requires BackedOut(w.sh, m, o) && Grows(w, t, ch, m, m') && OutOk(w.sh, t, o)
    requires o.ConnLoad? || o.ConnPlayer? || o.ConnCurrent?
    ensures var to := Free(w.sh, t, w.Served(t), o, ch); BackedOut(to.sh, m', to.pc)
  {
    hide Grows, StartOk, BackedRefusal, Deserves, Load;
    Kept(w, t, ch, m, m');
    match m.task
    case Some(Asked(rid, a)) =>
      match o {
        case ConnLoad(g, digest) =>
          LoadDecides(w.sh, t.Mine(), g, digest, ch.fail);
          match Load(w.sh, g, digest, ch.fail) {
            case Failure(code) => Deserved(w, t, ch, m, m', rid, a, code);
            case Success(_) =>
          }
        case _ =>
      }
    case _ =>
  }

  lemma ResumedBacked(sh: Shared, t: Tid, m: Memory, d: ConnId, k: Resume)
    requires BackedResume(m, d, k) && DetachOk(sh, t, d, k)
    ensures BackedGoing(sh, m, Resumed(k))
  {
    hide Covers;
  }

  lemma DetachBacked(w: World, t: Tid, o: OutPc, ch: Choice, m: Memory, m': Memory)
    requires BackedOut(w.sh, m, o) && Grows(w, t, ch, m, m') && OutOk(w.sh, t, o)
    requires o.DetachRead? || o.DiscClose? || o.DiscForget?
    ensures var to := Free(w.sh, t, w.Served(t), o, ch); BackedOut(to.sh, m', to.pc)
  {
    hide Grows, DetachOk, Resumed, Forget, Shared.Closed;
    Kept(w, t, ch, m, m');
    match o
    case DetachRead(d, _, k) => ResumedBacked(w.sh, t, m', d, k);
    case _ =>
  }

  lemma ExpLoadBacked(w: World, t: Tid, p: PlayerId, cutoff: Time, ch: Choice, m: Memory, m': Memory)
    requires w.Phase(t) == Out(ExpLoad(p, cutoff)) && BackedOut(w.sh, m, ExpLoad(p, cutoff)) && Grows(w, t, ch, m, m')
    ensures var to := Free(w.sh, t, w.Served(t), ExpLoad(p, cutoff), ch); BackedOut(to.sh, m', to.pc)
  {
    hide Grows, Before, FindsSeat, Does;
    Kept(w, t, ch, m, m');
    if ch.fail {
      Met(w, t, ch, m, m', Expiring(p, cutoff), Failing);
    } else if InactivePlayer(w.sh, p, cutoff) {
      Met(w, t, ch, m, m', Expiring(p, cutoff), Inactive);
    } else {
      Met(w, t, ch, m, m', Expiring(p, cutoff), Spared);
    }
  }

  lemma ExpConnBacked(w: World, t: Tid, p: PlayerId, mark: int, ch: Choice, m: Memory, m': Memory)
    requires BackedOut(w.sh, m, ExpConn(p, mark)) && Grows(w, t, ch, m, m')
    ensures var to := Free(w.sh, t, w.Served(t), ExpConn(p, mark), ch); BackedOut(to.sh, m', to.pc)
  {
    hide Grows, FindsSeat, Does;
    Kept(w, t, ch, m, m');
    match m.task
    case Some(Expiring(q, cutoff)) =>
      match Get(w.sh.reg.players, p) {
        case Some(d) => Met(w, t, ch, m, m', Expiring(q, cutoff), Registered(d));
        case None => Met(w, t, ch, m, m', Expiring(q, cutoff), Unregistered);
      }
  }

  lemma ExpiryBacked(w: World, t: Tid, o: OutPc, ch: Choice, m: Memory, m': Memory)
    requires w.Phase(t) == Out(o) && BackedOut(w.sh, m, o) && Grows(w, t, ch, m, m')
    requires o.ExpList? || o.ExpNext? || o.ExpClose? || o.ExpDelete?
    ensures var to := Free(w.sh, t, w.Served(t), o, ch); BackedOut(to.sh, m', to.pc)
  {
    hide Grows, Finds, Cut, DeletePlayer, Shared.Closed;
    Kept(w, t, ch, m, m');
    match m.task
    case Some(Expiring(p, cutoff)) =>
      if ch.fail {
        FailureFound(w, t, ch, m, m', Expiring(p, cutoff));
      } else if o.ExpDelete? {
        RemovalFound(w, t, ch, m, m', p, cutoff);
      }
  }

  lemma FailureFound(w: World, t: Tid, ch: Choice, m: Memory, m': Memory, task: Task)
    requires Grows(w, t, ch, m, m') && m.task == Some(task) && ch.fail
    ensures Failing in m'.found
  {
    hide Grows, Does;
    Met(w, t, ch, m, m', task, Failing);
  }

  lemma RemovalFound(w: World, t: Tid, ch: Choice, m: Memory, m': Memory, p: PlayerId, cutoff: Time)
    requires Grows(w, t, ch, m, m') && m.task == Some(Expiring(p, cutoff)) && !ch.fail
    requires match w.Phase(t) case Out(o) => (match o case ExpDelete(q, _) => q == p case _ => false) case _ => false
    ensures Removed in m'.found
  {
    hide Grows;
    Met(w, t, ch, m, m', Expiring(p, cutoff), Removed);
  }

  lemma FreeBacked(w: World, t: Tid, o: OutPc, ch: Choice, m: Memory, m': Memory)
    requires w.Phase(t) == Out(o) && !o.Idle? && !o.Lock?
    requires BackedOut(w.sh, m, o) && Grows(w, t, ch, m, m') && OutOk(w.sh, t, o)
    ensures var to := Free(w.sh, t, w.Served(t), o, ch); BackedOut(to.sh, m', to.pc)
  {
    hide BackedOut, Grows, Free, Shared.PlayerOn;
    if o.AuthTouch? || o.AuthRegister? || o.AuthReply? || o.AuthNotify? || o.AuthClose? {
      AuthBacked(w, t, o, ch, m, m');
    } else if o.ConnLoad? || o.ConnPlayer? || o.ConnCurrent? {
      ConnBacked(w, t, o, ch, m, m');
    } else if o.DetachRead? || o.DiscClose? || o.DiscForget? {
      DetachBacked(w, t, o, ch, m, m');
    } else if o.ExpList? || o.ExpNext? || o.ExpClose? || o.ExpDelete? {
      ExpiryBacked(w, t, o, ch, m, m');
    } else {
      match o
      case Dispatch(a) => DispatchBacked(w, t, a, ch, m, m');
      case Gate(a) => GateBacked(w, t, a, ch, m, m');
      case AuthLoad(p, digest) => AuthLoadBacked(w, t, p, digest, ch, m, m');
      case ExpLoad(p, cutoff) => ExpLoadBacked(w, t, p, cutoff, ch, m, m');
      case ExpConn(p, mark) => ExpConnBacked(w, t, p, mark, ch, m, m');
      case _ => FieldsBacked(w, t, o, ch, m, m');
    }
  }

  // ----- Steps under game locks -----

  /** Seating refuses whoever the game keeps out, and gives a seat to whoever it lets in. */
  lemma SeatingDecides(sh: Shared, c: ConnId, g: GameId, digest: Digest, row: Game, p: PlayerId)
    requires sh.PlayerOn(c) == Some(p) && Load(sh, g, digest, false) == Success(row)
    ensures match Seating(row, p)
      case Failure(code) => Deserves(sh, c, Connect(g, digest), false, code)
      case Success(i) =>
        && Grants(sh, c, Connect(g, digest), false)
        && (match i case ConnSave(_, _, seat, _) => SeatFor(row, Some(p)) == Some(seat) case _ => false)
  {
    hide Breaks, Bereft;
  }

  lemma ReloadBacked(w: World, t: Tid, g: GameId, p: PlayerId, digest: Digest, ch: Choice, m: Memory, m': Memory)
    requires BackedIn(w.sh, m, g, ConnReload(p, digest)) && Grows(w, t, ch, m, m')
    requires t.Reader? && w.sh.PlayerOn(t.Mine()) == Some(p)
    ensures var to := Body(w.sh, t, g, w.Served(t), ConnReload(p, digest), ch); BackedIn(to.sh, m', g, to.pc)
  {
    hide Grows, BackedRefusal, Deserves, Grants, Load, Seating, Does, Shared.PlayerOn;
    Kept(w, t, ch, m, m');
    LoadDecides(w.sh, t.Mine(), g, digest, ch.fail);
    match m.task
    case Some(Asked(rid, a)) =>
      match Load(w.sh, g, digest, ch.fail) {
        case Failure(code) => Deserved(w, t, ch, m, m', rid, a, code);
        case Success(row) =>
          LoadWorks(w.sh, g, digest, ch.fail);
          SeatingDecides(w.sh, t.Mine(), g, digest, row, p);
          match Seating(row, p) {
            case Failure(code) => Deserved(w, t, ch, m, m', rid, a, code);
            case Success(i) =>
              Met(w, t, ch, m, m', Asked(rid, a), Granting);
              Met(w, t, ch, m, m', Asked(rid, a), Sits(g, i.seat));
          }
      }
  }

  lemma LoadWorks(sh: Shared, g: GameId, digest: Digest, fail: bool)
    requires Load(sh, g, digest, fail).Success?
    ensures !fail && Load(sh, g, digest, false) == Load(sh, g, digest, fail)
  {
  }

  /** A save that the store refuses is of a game one of whose players has been deleted since it was loaded. */
  lemma RefusedSave(sh: Shared, g: GameId, copy: Game, actor: Option<PlayerId>, now: Time)
    requires DbOk(sh) && g in sh.db.games && SeatCopied(sh, sh.db.games[g].host, copy.host)
    requires SeatCopied(sh, sh.db.games[g].guest, copy.guest) || (sh.db.games[g].guest.None? && copy.guest.Some?)
    requires SaveGame(sh.db, g, copy, actor, now).Failure?
    ensures match Get(sh.db.games, g) case Some(row) => row.host.None? || row.guest.None? case None => false
  {
  }

  /** What a save comes to, and how it is found. */
  lemma SaveDecides(sh: Shared, g: GameId, copy: Game, actor: Option<PlayerId>, commit: Commit, ch: Choice)
    ensures match Saved(sh, g, copy, actor, commit, ch)
      case Some(sh') => !ch.fail && SaveGame(sh.db, g, copy, actor, ch.now).Success?
      case None => ch.fail || SaveGame(sh.db, g, copy, actor, ch.now).Failure?
  {
    hide SaveGame;
  }

  lemma ConnSaveBacked(w: World, t: Tid, g: GameId, p: PlayerId, copy: Game, seat: Seat, joined: bool, ch: Choice,
                       m: Memory, m': Memory)
    requires BackedIn(w.sh, m, g, ConnSave(p, copy, seat, joined)) && Grows(w, t, ch, m, m')
    requires DbOk(w.sh) && CopyOk(w.sh, t, g, ConnSave(p, copy, seat, joined))
    ensures
      var to := Body(w.sh, t, g, w.Served(t), ConnSave(p, copy, seat, joined), ch);
      BackedIn(to.sh, m', g, to.pc)
  {
    hide Grows, BackedRefusal, DbOk, SeatCopied, Deserves, Grants, SaveGame, Saved, Does, JoinGame;
    Kept(w, t, ch, m, m');
    var commit := if joined then Changed(Join) else Reconnected;
    SaveDecides(w.sh, g, copy.(lastActive := ch.now), Some(p), commit, ch);
    match m.task
    case Some(Asked(rid, a)) =>
      if Saved(w.sh, g, copy.(lastActive := ch.now), Some(p), commit, ch).None? {
        if !ch.fail {
          RefusedSave(w.sh, g, copy.(lastActive := ch.now), Some(p), ch.now);
        }
        InternalDeserved(w.sh, t.Mine(), g, a, ch.fail);
        Deserved(w, t, ch, m, m', rid, a, Internal);
      }
  }

  lemma InternalDeserved(sh: Shared, c: ConnId, g: GameId, a: Action, fail: bool)
    requires GameFor(sh, c, a) == Some(g)
    requires fail || match Get(sh.db.games, g) case Some(row) => row.host.None? || row.guest.None? case None => false
    ensures Deserves(sh, c, a, fail, Internal)
  {
  }

  lemma AttachBacked(w: World, t: Tid, g: GameId, l: LockRef, seat: Seat, row: Game, v: nat, joined: bool, ch: Choice,
                     m: Memory, m': Memory)
    requires w.Phase(t) == Inside(g, l, ConnAttach(seat, row, v, joined))
    requires BackedIn(w.sh, m, g, ConnAttach(seat, row, v, joined)) && Grows(w, t, ch, m, m')
    ensures
      var to := Body(w.sh, t, g, w.Served(t), ConnAttach(seat, row, v, joined), ch);
      BackedIn(to.sh, m', g, to.pc)
  {
    hide Grows, BackedRefusal, Deserves, Attach;
    Kept(w, t, ch, m, m');
    match m.task
    case Some(task) =>
      if !w.sh.Place(t.Mine()).In(g) {
        Met(w, t, ch, m, m', task, Comes(g));
      }
  }

  lemma ViewBacked(w: World, t: Tid, g: GameId, i: InPc, ch: Choice, m: Memory, m': Memory)
    requires BackedIn(w.sh, m, g, i) && Grows(w, t, ch, m, m') && (i.ConnView? || i.ConnList?)
    ensures var to := Body(w.sh, t, g, w.Served(t), i, ch); BackedIn(to.sh, m', g, to.pc)
  {
    hide Grows, BackedRefusal, BackedGoing, Deserves, Finds, Shared.View;
    Kept(w, t, ch, m, m');
    match m.task
    case Some(Asked(rid, a)) =>
      RequestRests(w.sh, m');
      if i.ConnView? && ch.fail {
        FailureDeserved(w.sh, t.Mine(), a);
        Deserved(w, t, ch, m, m', rid, a, Internal);
        RefusalGoes(w.sh.(stale := w.sh.stale + {g}), m', Internal);
      }
  }

  lemma RequestRests(sh: Shared, m: Memory)
    requires IsAsked(m)
    ensures BackedGoing(sh, m, Idle)
  {
  }

  lemma RefusalGoes(sh: Shared, m: Memory, code: Code)
    requires BackedRefusal(m, code)
    ensures BackedGoing(sh, m, SendErr(code))
  {
    hide BackedRefusal;
  }

  lemma ActCheckBacked(w: World, t: Tid, g: GameId, a: Action, ch: Choice, m: Memory, m': Memory)
    requires BackedIn(w.sh, m, g, ActCheck(a)) && Grows(w, t, ch, m, m') && StartOk(w.sh, t, g, ActCheck(a))
    ensures var to := Body(w.sh, t, g, w.Served(t), ActCheck(a), ch); BackedIn(to.sh, m', g, to.pc)
  {
    hide Grows, BackedRefusal, DetachOk, Covers, Breaks, Excludes, Bereft;
    Kept(w, t, ch, m, m');
    match m.task
    case Some(Asked(rid, b)) =>
      if w.sh.Place(t.Mine()) == Nowhere {
        Deserved(w, t, ch, m, m', rid, b, NotInGame);
      }
  }

  lemma ActLoadBacked(w: World, t: Tid, g: GameId, a: Action, seat: Seat, p: PlayerId, ch: Choice, m: Memory,
      m': Memory)
    requires BackedIn(w.sh, m, g, ActLoad(a, seat, p)) && Grows(w, t, ch, m, m')
    requires g in w.sh.db.games && a.NeedsGame() && w.sh.Place(t.Mine()) == At(g, seat)
    ensures var to := Body(w.sh, t, g, w.Served(t), ActLoad(a, seat, p), ch); BackedIn(to.sh, m', g, to.pc)
  {
    hide Grows, BackedRefusal, Apply, AttemptOf, Finds, Deserves;
    Kept(w, t, ch, m, m');
    match m.task
    case Some(Asked(rid, b)) =>
      if ch.fail {
        FailureDeserved(w.sh, t.Mine(), b);
        Deserved(w, t, ch, m, m', rid, b, Internal);
      } else {
        ActionDecides(w, t, ch, g, rid, b, seat);
        match Apply(w.sh.db.games[g].state, AttemptOf(a, seat)) {
          case Failure(e) => Deserved(w, t, ch, m, m', rid, b, Broken(e));
          case Success(_) =>
            Met(w, t, ch, m, m', Asked(rid, b), Granting);
            Met(w, t, ch, m, m', Asked(rid, b), Sits(g, seat));
        }
      }
  }

  /** The rules decide about a game action on the stored state of the game. */
  lemma ActionDecides(w: World, t: Tid, ch: Choice, g: GameId, rid: RequestId, a: Action, seat: Seat)
    requires a.NeedsGame() && !ch.fail && w.sh.Place(t.Mine()) == At(g, seat) && g in w.sh.db.games
    ensures match Apply(w.sh.db.games[g].state, AttemptOf(a, seat))
      case Failure(e) => Deserves(w.sh, t.Mine(), a, false, Broken(e))
      case Success(_) =>
        Finds(w, t, ch, Asked(rid, a), Granting) && Finds(w, t, ch, Asked(rid, a), Sits(g, seat))
  {
    hide Apply, AttemptOf, Does;
  }

  /** A save of a game action is found as what it is. */
  lemma ActSaveFound(w: World, t: Tid, g: GameId, l: LockRef, a: Action, seat: Seat, p: PlayerId, copy: Game,
      ch: Choice,
                     m: Memory, m': Memory, task: Task)
    requires w.Phase(t) == Inside(g, l, ActSave(a, seat, p, copy)) && Grows(w, t, ch, m, m') && m.task == Some(task)
    requires !ch.fail && SaveGame(w.sh.db, g, copy.(lastActive := ch.now), Some(p), ch.now).Success?
    ensures Saves(g, Changed(AttemptOf(a, seat))) in m'.found
    ensures copy.state.RematchIssuer() == Some(seat) ==> Pends(g, seat) in m'.found
  {
    hide Grows, SaveGame, AttemptOf;
    Met(w, t, ch, m, m', task, Saves(g, Changed(AttemptOf(a, seat))));
    if copy.state.RematchIssuer() == Some(seat) {
      Met(w, t, ch, m, m', task, Pends(g, seat));
    }
  }

  /** A request for a rematch that does not start a round is pending. */
  lemma RequestPends(s: State, seat: Seat, s': State)
    requires Apply(s, AskRematch(seat)) == Success(s') && s'.status != Active
    ensures s'.RematchIssuer() == Some(seat)
  {
  }

  lemma AttemptIs(seat: Seat)
    ensures AttemptOf(DoRematch, seat) == AskRematch(seat)
  {
  }

  /** What is told after a game action is what it was. */
  lemma ActedBacked(sh: Shared, m: Memory, g: GameId, c: ConnId, rid: RequestId, a: Action, seat: Seat, row: Game,
      v: nat)
    requires For(m, a) && Granting in m.found && Sits(g, seat) in m.found
    requires Saves(g, Changed(AttemptOf(a, seat))) in m.found
    requires a.DoRematch? && row.state.status != Active ==> Pends(g, seat) in m.found
    ensures a.DoLeave? ==> BackedIn(sh, m, g, ActDetach(seat, row, v))
    ensures !a.DoLeave? ==> BackedIn(sh, m, g, SendAll([c], [Direct(rid, Ok)], map[], AfterOk(a, seat, row, v)))
  {
  }

  lemma ActSaveIs(sh: Shared, m: Memory, g: GameId, a: Action, seat: Seat, p: PlayerId, copy: Game)
    requires BackedIn(sh, m, g, ActSave(a, seat, p, copy))
    ensures For(m, a) && Granting in m.found && Sits(g, seat) in m.found
  {
  }

  lemma RefusalLeaves(sh: Shared, m: Memory, g: GameId, code: Code)
    requires BackedRefusal(m, code)
    ensures BackedIn(sh, m, g, LeaveLock(SendErr(code)))
  {
    hide BackedRefusal;
  }

  lemma ActSaveBacked(w: World, t: Tid, g: GameId, l: LockRef, a: Action, seat: Seat, p: PlayerId, copy: Game,
      ch: Choice,
                      m: Memory, m': Memory)
    requires w.Phase(t) == Inside(g, l, ActSave(a, seat, p, copy))
    requires BackedIn(w.sh, m, g, ActSave(a, seat, p, copy)) && Grows(w, t, ch, m, m')
    requires DbOk(w.sh) && CopyOk(w.sh, t, g, ActSave(a, seat, p, copy))
    ensures var to := Body(w.sh, t, g, w.Served(t), ActSave(a, seat, p, copy), ch); BackedIn(to.sh, m', g, to.pc)
  {
    hide Grows, BackedIn, BackedRefusal, DbOk, SeatCopied, Deserves, SaveGame, Saved, Does, Apply, AttemptOf, AfterOk;
    Kept(w, t, ch, m, m');
    ActSaveIs(w.sh, m, g, a, seat, p, copy);
    var row := copy.(lastActive := ch.now);
    var saved := Saved(w.sh, g, row, Some(p), Changed(AttemptOf(a, seat)), ch);
    SaveDecides(w.sh, g, row, Some(p), Changed(AttemptOf(a, seat)), ch);
    match m.task
    case Some(Asked(rid, b)) =>
      match saved {
        case None =>
          if !ch.fail {
            RefusedSave(w.sh, g, row, Some(p), ch.now);
          }
          InternalDeserved(w.sh, t.Mine(), g, b, ch.fail);
          Deserved(w, t, ch, m, m', rid, b, Internal);
          RefusalLeaves(w.sh, m', g, Internal);
        case Some(sh') =>
          ActSaveFound(w, t, g, l, a, seat, p, copy, ch, m, m', Asked(rid, b));
          if a.DoRematch? && copy.state.status != Active {
            AttemptIs(seat);
            RequestPends(w.sh.db.games[g].state, seat, copy.state);
          }
          ActedBacked(sh', m', g, t.Mine(), w.Served(t).rid, a, seat, row, sh'.Version(g));
      }
  }

  lemma TellBacked(w: World, t: Tid, g: GameId, i: InPc, ch: Choice, m: Memory, m': Memory)
    requires BackedIn(w.sh, m, g, i) && Grows(w, t, ch, m, m')
    requires i.ActDetach? || i.Tell? || i.CastView? || i.CastList?
    ensures var to := Body(w.sh, t, g, w.Served(t), i, ch); BackedIn(to.sh, m', g, to.pc)
  {
    hide Grows, BackedMsg, BackedOver, Detach, Shared.View, Shared.SeatsIn;
    Kept(w, t, ch, m, m');
    match i
    case ActDetach(seat, _, _) =>
      OverStays(m, m', g, PlayerLeft, seat);
      OkBacked(m', g, w.Served(t).rid);
    case Tell(e, _, _) => MsgStays(m, m', g, e);
    case CastList(view, v) => StateBacked(m', g, Snap(g, v, view, Host));
    case _ =>
  }

  lemma OkBacked(m: Memory, g: GameId, rid: RequestId)
    requires Granted(m)
    ensures BackedMsg(m, g, Direct(rid, Ok))
  {
  }

  lemma StateBacked(m: Memory, g: GameId, snap: Snap)
    ensures BackedMsg(m, g, StateIs(snap))
  {
  }

  lemma ClosingBacked(w: World, t: Tid, g: GameId, i: InPc, reason: Reason, side: Seat, o: OutPc, ch: Choice, m: Memory,
                      m': Memory)
    requires BackedIn(w.sh, m, g, i) && Grows(w, t, ch, m, m')
    requires match i
      case CloseView(r, s, _, _, o') => r == reason && s == side && o' == o
      case CloseList(r, s, _, _, _, o') => r == reason && s == side && o' == o
      case _ => false
    ensures var to := Body(w.sh, t, g, w.Served(t), i, ch); BackedIn(to.sh, m', g, to.pc)
  {
    hide Grows, BackedOver, BackedOut, BackedGoing, DetachSet, Shared.View, Shared.SeatsIn;
    Kept(w, t, ch, m, m');
    var to := Body(w.sh, t, g, w.Served(t), i, ch);
    OverStays(m, m', g, reason, side);
    GoingStays(w.sh, to.sh, m, m', o);
  }

  lemma SendsBacked(w: World, t: Tid, g: GameId, todo: seq<ConnId>, msgs: seq<Msg>, seats: map<ConnId, Seat>, next: nat,
                    k: Then, ch: Choice, m: Memory, m': Memory)
    requires BackedIn(w.sh, m, g, Sends(todo, msgs, seats, next, k)) && Grows(w, t, ch, m, m')
    ensures
      var to := Body(w.sh, t, g, w.Served(t), Sends(todo, msgs, seats, next, k), ch);
      BackedIn(to.sh, m', g, to.pc)
  {
    hide Grows, BackedMsg, BackedOver, BackedOut, BackedGoing, Send, Rendered;
    Kept(w, t, ch, m, m');
    var to := Body(w.sh, t, g, w.Served(t), Sends(todo, msgs, seats, next, k), ch);
    SentOnward(w.sh, to.sh, todo, msgs, seats, next, k, w.Served(t), m, m');
    forall msg | msg in msgs ensures BackedMsg(m', g, msg) {
      MsgStays(m, m', g, msg);
    }
    match k
    case ThenLeave(o) => GoingStays(w.sh, to.sh, m, m', o);
    case ThenTell(e, _, _) => MsgStays(m, m', g, e);
    case ThenClose(reason, side, _, _, o) =>
      GoingStays(w.sh, to.sh, m, m', o);
      OverStays(m, m', g, reason, side);
    case _ =>
  }

  lemma SentOnward(sh: Shared, sh': Shared, todo: seq<ConnId>, msgs: seq<Msg>, seats: map<ConnId, Seat>, next: nat,
                   k: Then, sv: Serving, m: Memory, m': Memory)
    requires sh' == SendNext(sh, todo, msgs, seats, next, k, sv).sh && m'.task == m.task && m.found <= m'.found
    ensures Onward(sh, sh', m, m')
  {
    hide Rendered, Following;
  }

  lemma PartingBacked(m: Memory, g: GameId, d: ConnId, seat: Seat, k: Resume)
    requires BackedResume(m, d, k) && Leaves(d, g, seat) in m.found && (k.GoConnect? ==> k.game != g)
    ensures BackedMsg(m, g, OpponentDisconnected(seat))
  {
    assert Parting(m, d);
  }

  lemma GoneBacked(sh: Shared, m: Memory, g: GameId, conns: seq<ConnId>, seat: Seat, o: OutPc)
    requires BackedMsg(m, g, OpponentDisconnected(seat)) && BackedGoing(sh, m, o)
    ensures BackedIn(sh, m, g, SendAll(conns, [OpponentDisconnected(seat)], map[], ThenLeave(o)))
  {
    hide BackedMsg, BackedGoing;
  }

  lemma RetryBacked(sh: Shared, m: Memory, g: GameId, d: ConnId, tries: int, k: Resume)
    requires BackedIn(sh, m, g, DetachCheck(d, tries, k))
    ensures BackedResume(m, d, k) && BackedIn(sh, m, g, LeaveLock(DetachRead(d, tries + 1, k)))
  {
    hide BackedResume;
  }

  lemma DetachCheckBacked(w: World, t: Tid, g: GameId, d: ConnId, tries: int, k: Resume, ch: Choice, m: Memory,
      m': Memory)
    requires BackedIn(w.sh, m, g, DetachCheck(d, tries, k)) && Grows(w, t, ch, m, m') && DetachOk(w.sh, t, d, k)
    ensures var to := Body(w.sh, t, g, w.Served(t), DetachCheck(d, tries, k), ch); BackedIn(to.sh, m', g, to.pc)
  {
    hide Grows, BackedIn, BackedStart, BackedGoing, BackedMsg, BackedResume, DetachOk, Resumed, Detach;
    Kept(w, t, ch, m, m');
    RetryBacked(w.sh, m, g, d, tries, k);
    ResumeStays(m, m', g, d, tries, k);
    RetryBacked(w.sh, m', g, d, tries, k);
    ResumedBacked(w.sh, t, m', d, k);
    match w.sh.Place(d)
    case At(h, seat) =>
      if h == g {
        LeavingFound(w, t, ch, m, m', d, g, seat, k);
        LeavesAnother(w.sh, t, d, k, g);
        PartingBacked(m', g, d, seat, k);
        var sh' := w.sh.(reg := Detach(w.sh.reg, d));
        GoingStays(w.sh, sh', m', m', Resumed(k));
        GoneBacked(sh', m', g, ch.conns, seat, Resumed(k));
      }
    case Nowhere =>
  }

  lemma ResumeStays(m: Memory, m': Memory, g: GameId, d: ConnId, tries: int, k: Resume)
    requires m'.task == m.task && m.found <= m'.found && BackedResume(m, d, k)
    ensures forall sh :: BackedIn(sh, m', g, DetachCheck(d, tries, k))
  {
    StartStays(m, m', g, DetachCheck(d, tries, k));
  }

  lemma LeavesAnother(sh: Shared, t: Tid, d: ConnId, k: Resume, g: GameId)
    requires DetachOk(sh, t, d, k) && sh.Place(d).In(g)
    ensures k.GoConnect? ==> k.game != g
  {
    hide Covers;
  }

  lemma LeavingFound(w: World, t: Tid, ch: Choice, m: Memory, m': Memory, d: ConnId, g: GameId, seat: Seat, k: Resume)
    requires Grows(w, t, ch, m, m') && BackedResume(m, d, k) && DetachOk(w.sh, t, d, k) && w.sh.Place(d) == At(g, seat)
    ensures Leaves(d, g, seat) in m'.found
  {
    hide Grows, Covers, Does, FindsSeat, Deserves, Grants;
    match m.task
    case Some(task) => Met(w, t, ch, m, m', task, Leaves(d, g, seat));
  }

  lemma ExpReloadBacked(w: World, t: Tid, g: GameId, p: PlayerId, todo: seq<GameId>, mark: int, ch: Choice, m: Memory,
                        m': Memory)
    requires BackedIn(w.sh, m, g, ExpReload(p, todo, mark)) && Grows(w, t, ch, m, m')
    ensures var to := Body(w.sh, t, g, w.Served(t), ExpReload(p, todo, mark), ch); BackedIn(to.sh, m', g, to.pc)
  {
    hide Grows, After, Game.SeatOf, Finds, BackedGoing;
    Kept(w, t, ch, m, m');
    match m.task
    case Some(task) =>
      GoesOn(w.sh, m', p, todo, mark);
      if ch.fail {
        FailureFound(w, t, ch, m, m', task);
        Rests(w.sh, m');
      } else if g in w.sh.db.games && w.sh.db.games[g].SeatOf(p).Some? {
        SeatFound(w, t, ch, m, m', task, g, p, w.sh.db.games[g].SeatOf(p).value);
      }
  }

  /** An expiry goes on with the next game. */
  lemma GoesOn(sh: Shared, m: Memory, p: PlayerId, todo: seq<GameId>, mark: int)
    requires ExpiringPlayer(m, p) && Inactive in m.found
    ensures BackedGoing(sh, m, ExpNext(p, todo, mark))
  {
  }

  /** A job that the store has hampered is finished. */
  lemma Rests(sh: Shared, m: Memory)
    requires Failing in m.found
    ensures BackedGoing(sh, m, Idle)
  {
  }

  lemma SeatFound(w: World, t: Tid, ch: Choice, m: Memory, m': Memory, task: Task, g: GameId, p: PlayerId, seat: Seat)
    requires Grows(w, t, ch, m, m') && m.task == Some(task) && ExpiringPlayer(m, p)
    requires g in w.sh.db.games && w.sh.db.games[g].SeatOf(p) == Some(seat)
    ensures Sits(g, seat) in m'.found
  {
    hide Grows, Does, Game.SeatOf;
    Met(w, t, ch, m, m', task, Sits(g, seat));
  }

  lemma ExpSaveFound(w: World, t: Tid, g: GameId, l: LockRef, p: PlayerId, todo: seq<GameId>, mark: int, copy: Game,
                     seat: Seat, ch: Choice, m: Memory, m': Memory, task: Task)
    requires w.Phase(t) == Inside(g, l, ExpSave(p, todo, mark, copy, seat)) && Grows(w, t, ch, m, m')
    requires m.task == Some(task) && !ch.fail && SaveGame(w.sh.db, g, copy, None, ch.now).Success?
    ensures Saves(g, Changed(Leave)) in m'.found
  {
    hide Grows, SaveGame;
    Met(w, t, ch, m, m', task, Saves(g, Changed(Leave)));
  }

  lemma RefusalFound(w: World, t: Tid, g: GameId, l: LockRef, p: PlayerId, todo: seq<GameId>, mark: int, copy: Game,
                     seat: Seat, ch: Choice, m: Memory, m': Memory, task: Task)
    requires w.Phase(t) == Inside(g, l, ExpSave(p, todo, mark, copy, seat)) && Grows(w, t, ch, m, m')
    requires m.task == Some(task) && (ch.fail || SaveGame(w.sh.db, g, copy, None, ch.now).Failure?)
    ensures Failing in m'.found
  {
    hide Grows, SaveGame;
    Met(w, t, ch, m, m', task, Failing);
  }

  lemma ExpSaveBacked(w: World, t: Tid, g: GameId, l: LockRef, p: PlayerId, todo: seq<GameId>, mark: int, copy: Game,
                      seat: Seat, ch: Choice, m: Memory, m': Memory)
    requires w.Phase(t) == Inside(g, l, ExpSave(p, todo, mark, copy, seat))
    requires BackedIn(w.sh, m, g, ExpSave(p, todo, mark, copy, seat)) && Grows(w, t, ch, m, m')
    ensures
      var to := Body(w.sh, t, g, w.Served(t), ExpSave(p, todo, mark, copy, seat), ch);
      BackedIn(to.sh, m', g, to.pc)
  {
    hide Grows, SaveGame, Saved, Does;
    Kept(w, t, ch, m, m');
    SaveDecides(w.sh, g, copy, None, Changed(Leave), ch);
    match m.task
    case Some(task) =>
      if Saved(w.sh, g, copy, None, Changed(Leave), ch).Some? {
        ExpSaveFound(w, t, g, l, p, todo, mark, copy, seat, ch, m, m', task);
      } else {
        RefusalFound(w, t, g, l, p, todo, mark, copy, seat, ch, m, m', task);
      }
  }

  lemma ExpDetachBacked(w: World, t: Tid, g: GameId, p: PlayerId, todo: seq<GameId>, mark: int, seat: Seat, row: Game,
                        v: nat, ch: Choice, m: Memory, m': Memory)
    requires BackedIn(w.sh, m, g, ExpDetach(p, todo, mark, seat, row, v)) && Grows(w, t, ch, m, m')
    ensures
      var to := Body(w.sh, t, g, w.Served(t), ExpDetach(p, todo, mark, seat, row, v), ch);
      BackedIn(to.sh, m', g, to.pc)
  {
    hide Grows, BackedOver, DetachSet;
    Kept(w, t, ch, m, m');
    OverStays(m, m', g, PlayerExpired, seat);
  }

  // ----- A game that expires -----

  /** What a step adds to who is known to have been attached. */
  lemma AttachedFound(w: World, t: Tid, g: GameId, ch: Choice, m: Memory, cutoff: Time)
    requires m.task == Some(Ending(g, cutoff))
    ensures forall d ::
      Attached(d) in FindingsOf(w, t, ch, m.task) <==> IsInside(w, t, g) && d in w.sh.reg.Attached(g)
  {
  }

  lemma GameLoadBacked(w: World, t: Tid, g: GameId, cutoff: Time, ch: Choice, m: Memory)
    requires IsInside(w, t, g) && BackedIn(w.sh, m, g, GameLoad(cutoff))
    ensures
      var to := Body(w.sh, t, g, w.Served(t), GameLoad(cutoff), ch);
      BackedIn(to.sh, More(w, t, ch, m), g, to.pc)
  {
    hide Finds, Before, Grows, IsInside;
    AttachedFound(w, t, g, ch, m, cutoff);
    MoreGrows(w, t, ch, m);
    if ch.fail {
      FailureFound(w, t, ch, m, More(w, t, ch, m), Ending(g, cutoff));
    } else if !InactiveGame(w.sh, g, cutoff) {
      SparingFound(w, t, ch, m, More(w, t, ch, m), g, cutoff);
    }
  }

  lemma SparingFound(w: World, t: Tid, ch: Choice, m: Memory, m': Memory, g: GameId, cutoff: Time)
    requires Grows(w, t, ch, m, m') && m.task == Some(Ending(g, cutoff)) && IsInside(w, t, g)
    requires !InactiveGame(w.sh, g, cutoff)
    ensures Spared in m'.found
  {
    hide Grows, Before, IsInside;
    Met(w, t, ch, m, m', Ending(g, cutoff), Spared);
  }

  lemma GameDetachBacked(w: World, t: Tid, g: GameId, ch: Choice, m: Memory, m': Memory)
    requires BackedIn(w.sh, m, g, GameDetach) && m' == Memory(m.task, m.found + FindingsOf(w, t, ch, m.task))
    requires IsInside(w, t, g) && Lists(ch.conns, w.sh.reg.Attached(g))
    ensures var to := Body(w.sh, t, g, w.Served(t), GameDetach, ch); BackedIn(to.sh, m', g, to.pc)
  {
    hide Finds, Before, DetachSet;
    match m.task
    case Some(Ending(_, cutoff)) => AttachedFound(w, t, g, ch, m, cutoff);
  }

  /** Closing one of them leaves the others, and nobody new is known to have been attached. */
  lemma EvictedNext(sh: Shared, m: Memory, m': Memory, todo: seq<ConnId>)
    requires Evicted(sh, m, set d | d in todo) && WereAttached(m, todo) && todo != [] && todo[0] in sh.chan
    requires m.found <= m'.found && forall d :: Attached(d) in m'.found ==> Attached(d) in m.found
    ensures
      var sh' := sh.Closed(todo[0], CLOSE_GAME_EXPIRED);
      Evicted(sh', m', set d | d in todo[1..]) && WereAttached(m', todo[1..])
  {
    var sh' := sh.Closed(todo[0], CLOSE_GAME_EXPIRED);
    assert forall d :: sh.Closing(d) ==> sh'.Closing(d);
    assert forall d :: d in todo <==> d == todo[0] || d in todo[1..];
  }

  lemma GameCloseBacked(w: World, t: Tid, g: GameId, todo: seq<ConnId>, ch: Choice, m: Memory, m': Memory)
    requires BackedIn(w.sh, m, g, GameClose(todo)) && m' == Memory(m.task, m.found + FindingsOf(w, t, ch, m.task))
    requires w.sh.reg.Attached(g) == {} && forall d :: d in todo ==> d in w.sh.chan
    ensures var to := Body(w.sh, t, g, w.Served(t), GameClose(todo), ch); BackedIn(to.sh, m', g, to.pc)
  {
    hide Finds, Before, Shared.Closed;
    match m.task {
      case Some(Ending(_, cutoff)) => AttachedFound(w, t, g, ch, m, cutoff);
    }
    hide FindingsOf;
    if todo != [] {
      EvictedNext(w.sh, m, m', todo);
      hide Evicted, WereAttached;
      SameGames(w.sh, todo[0]);
    }
  }

  lemma SameGames(sh: Shared, d: ConnId)
    ensures sh.Closed(d, CLOSE_GAME_EXPIRED).db == sh.db
  {
  }

  lemma GameDeleteBacked(w: World, t: Tid, g: GameId, l: LockRef, ch: Choice, m: Memory, m': Memory)
    requires w.Phase(t) == Inside(g, l, GameDelete) && BackedIn(w.sh, m, g, GameDelete) && Grows(w, t, ch, m, m')
    ensures var to := Body(w.sh, t, g, w.Served(t), GameDelete, ch); BackedIn(to.sh, m', g, to.pc)
  {
    hide Grows, DeleteGame, Before, Evicted;
    Kept(w, t, ch, m, m');
    match m.task
    case Some(Ending(_, cutoff)) =>
      if ch.fail {
        FailureFound(w, t, ch, m, m', Ending(g, cutoff));
      } else {
        Met(w, t, ch, m, m', Ending(g, cutoff), Removed);
      }
  }
}
