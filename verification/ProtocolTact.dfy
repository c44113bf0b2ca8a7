/** Nobody is told what they have done themselves. */
module ProtocolTact {
  import opened Wrappers
  import opened Timestamps
  import opened Rules
  import opened Store
  import opened Registry
  import opened Protocol
  import opened ProtocolDoes
  import opened ProtocolLocks
  import opened ProtocolInvariant
  import opened ProtocolRely
  import opened ProtocolEffects
  import opened ProtocolStoreEffects
  import opened ProtocolNext
  import opened ProtocolSafety
  import opened ProtocolPresence
  import opened ProtocolDelivery

  /** A message that tells of what one of the players has done. */
  predicate Announces(m: Msg) {
    m.RematchRequested? || m.RematchDeclined? || m.OpponentConnected? || m.GameOver?
  }

  /** The player whose expiry the sweeper goes on with after the lock. */
  function Leaver(i: InPc): Option<PlayerId> {
    match Onward(i)
    case Some(o) => (match o case ExpNext(p, _, _) => Some(p) case _ => None)
    case None => None
  }

  /** Connection c is not that of the player who acts or expires. */
  predicate Other(sh: Shared, t: Tid, i: InPc, c: ConnId) {
    match t
    case Reader(d) => c != d
    case Sweeper =>
      match Leaver(i)
      case Some(p) => sh.PlayerOn(c) != None && sh.PlayerOn(c) != Some(p)
      case None => true
  }

  ghost predicate OthersThere(sh: Shared, t: Tid, g: GameId, i: InPc) {
    forall c :: c in sh.reg.Attached(g) ==> Other(sh, t, i, c)
  }

  /** Whatever is announced, now or once the loop is over, is announced to others. */
  ghost predicate Spares(sh: Shared, t: Tid, g: GameId, i: InPc) {
    match i
    case CloseView(_, _, _, _, _) => OthersThere(sh, t, g, i)
    case CloseList(_, _, _, _, _, _) => OthersThere(sh, t, g, i)
    case Sends(todo, msgs, _, _, k) =>
      && ((exists m :: m in msgs && Announces(m)) ==> forall c :: c in todo ==> Other(sh, t, i, c))
      && (k.ThenClose? ==> OthersThere(sh, t, g, i))
    case _ => true
  }

  lemma SendsSpare(sh: Shared, t: Tid, g: GameId, sv: Serving, todo: seq<ConnId>, msgs: seq<Msg>,
                   seats: map<ConnId, Seat>, next: nat, k: Then)
    requires Spares(sh, t, g, Sends(todo, msgs, seats, next, k))
    ensures var to := SendNext(sh, todo, msgs, seats, next, k, sv); Spares(to.sh, t, g, to.pc)
  {
    hide Rendered, Announces, Other, Leaver, Shared.Sent;
    if todo != [] && next < |msgs| {
      var i, to := Sends(todo, msgs, seats, next, k), SendNext(sh, todo, msgs, seats, next, k, sv);
      SentReg(sh, todo[0], Rendered(msgs[next], seats, todo[0]));
      LoopLeaver(todo, msgs, seats, next, k, to.pc, sh, sv);
      forall c ensures Other(sh, t, i, c) ==> Other(to.sh, t, to.pc, c) {
        SameOther(sh, to.sh, t, i, to.pc, c);
      }
    } else {
      LoopLeaver(todo, msgs, seats, next, k, Following(k), sh, sv);
      forall c ensures Other(sh, t, Sends(todo, msgs, seats, next, k), c) ==> Other(sh, t, Following(k), c) {
        SameOther(sh, sh, t, Sends(todo, msgs, seats, next, k), Following(k), c);
      }
    }
  }

  lemma SentReg(sh: Shared, c: ConnId, m: Msg)
    ensures sh.Sent(c, m).reg == sh.reg
  {
  }

  /** The expiry that goes on after a loop is the same in what is left of it, and in what follows. */
  lemma LoopLeaver(todo: seq<ConnId>, msgs: seq<Msg>, seats: map<ConnId, Seat>, next: nat, k: Then, i: InPc, sh: Shared,
                   sv: Serving)
    requires i == SendNext(sh, todo, msgs, seats, next, k, sv).pc
    ensures Leaver(i) == Leaver(Sends(todo, msgs, seats, next, k))
  {
  }

  lemma SameOther(sh: Shared, sh': Shared, t: Tid, i: InPc, i': InPc, c: ConnId)
    requires sh'.reg == sh.reg && Leaver(i') == Leaver(i)
    ensures Other(sh', t, i', c) == Other(sh, t, i, c)
  {
    hide Leaver;
  }

  /** Whoever is listed is somebody else. */
  lemma ListingSpares(sh: Shared, t: Tid, g: GameId, sv: Serving, i: InPc, ch: Choice)
    requires ListsConns(sh, t, g, i, ch) && t.Reader?
        && (i.ConnView? || i.ConnList? || i.Tell? || i.CastView? || i.CastList?)
    ensures var to := Body(sh, t, g, sv, i, ch); Spares(to.sh, t, g, to.pc)
  {
    hide Shared.View, Shared.SeatsIn;
    assert t == Reader(t.Mine());
  }

  lemma ClosingSpares(sh: Shared, t: Tid, g: GameId, sv: Serving, i: InPc, ch: Choice)
    requires Spares(sh, t, g, i) && ListsConns(sh, t, g, i, ch) && (i.CloseView? || i.CloseList?)
    ensures var to := Body(sh, t, g, sv, i, ch); Spares(to.sh, t, g, to.pc)
  {
    hide Shared.View, Shared.SeatsIn, Announces, Final;
  }

  /** The acting player's own connection has left before the game is announced to be over. */
  lemma LeavingSpares(sh: Shared, t: Tid, g: GameId, sv: Serving, seat: Seat, row: Game, v: nat, ch: Choice)
    requires t.Reader? && sh.Place(t.Mine()).In(g)
    ensures var to := Body(sh, t, g, sv, ActDetach(seat, row, v), ch); Spares(to.sh, t, g, to.pc)
  {
    hide Detach, Announces;
    assert t == Reader(t.Mine());
    assert forall m :: m in [Direct(sv.rid, Ok)] ==> !Announces(m) by {
      ReplyAnnounces(sv.rid);
    }
    DetachLeaves(sh.reg, t.Mine(), g);
  }

  lemma ReplyAnnounces(rid: RequestId)
    ensures !Announces(Direct(rid, Ok))
  {
  }

  /** So have the connections of an expiring player. */
  lemma ExpiringSpares(sh: Shared, t: Tid, g: GameId, sv: Serving, p: PlayerId, todo: seq<GameId>, mark: int,
      seat: Seat,
                       row: Game, v: nat, ch: Choice)
    requires Global(sh) && t == Sweeper
    ensures
      var to := Body(sh, t, g, sv, ExpDetach(p, todo, mark, seat, row, v), ch);
      Spares(to.sh, t, g, to.pc)
  {
    hide DbOk, LogsOk, HistoriesOk;
    assert forall c :: c in sh.reg.Attached(g) ==> c in sh.reg.link && sh.Place(c).In(g);
  }

  lemma OtherSpares(sh: Shared, t: Tid, g: GameId, sv: Serving, i: InPc, ch: Choice)
    requires !i.Sends? && !i.ConnView? && !i.ConnList? && !i.Tell? && !i.CastView? && !i.CastList? && !i.CloseView?
        && !i.CloseList? && !i.ActDetach? && !i.ExpDetach? && !i.LeaveLock?
    ensures var to := Body(sh, t, g, sv, i, ch); Spares(to.sh, t, g, to.pc)
  {
    hide Saved, Load, JoinGame, Apply, After, Before, AttemptOf, Attach, Detach, DetachSet, DeleteGame, Shared.Closed,
        Resumed;
  }

  lemma BodySpares(sh: Shared, t: Tid, g: GameId, sv: Serving, i: InPc, ch: Choice)
    requires Global(sh) && Local(sh, t, g, i) && ListsConns(sh, t, g, i, ch) && Spares(sh, t, g, i) && !i.LeaveLock?
    ensures var to := Body(sh, t, g, sv, i, ch); Spares(to.sh, t, g, to.pc)
  {
    hide Global, Local, ListsConns, Spares, SendNext;
    ReaderOnly(sh, t, g, i);
    DetacherIs(sh, t, g, i);
    match i
    case Sends(todo, msgs, seats, next, k) => SendsSpare(sh, t, g, sv, todo, msgs, seats, next, k);
    case ActDetach(seat, row, v) => LeavingSpares(sh, t, g, sv, seat, row, v, ch);
    case ExpDetach(p, todo, mark, seat, row, v) => ExpiringSpares(sh, t, g, sv, p, todo, mark, seat, row, v, ch);
    case _ =>
      if i.ConnView? || i.ConnList? || i.Tell? || i.CastView? || i.CastList? {
        ListingSpares(sh, t, g, sv, i, ch);
      } else if i.CloseView? || i.CloseList? {
        ClosingSpares(sh, t, g, sv, i, ch);
      } else {
        OtherSpares(sh, t, g, sv, i, ch);
      }
  }

  lemma DetacherIs(sh: Shared, t: Tid, g: GameId, i: InPc)
    requires Local(sh, t, g, i)
    ensures i.ActDetach? ==> t.Reader? && sh.Place(t.Mine()).In(g)
    ensures i.ExpDetach? ==> t == Sweeper
  {
    hide StartOk, CopyOk, Covers, RowIs;
  }

  /** Steps of others leave who is attached, and on which player. */
  lemma SparesStays(sh: Shared, sh': Shared, t: Tid, g: GameId, i: InPc)
    requires Spares(sh, t, g, i) && sh'.reg.Attached(g) == sh.reg.Attached(g)
    requires forall c :: sh.PlayerOn(c) != None ==> sh'.PlayerOn(c) == sh.PlayerOn(c)
    ensures Spares(sh', t, g, i)
  {
    hide Announces, Leaver, Shared.PlayerOn;
  }

  lemma DoFixes(sh: Shared, who: Option<Tid>, lock: Option<GameId>, e: Effect, c: ConnId)
    requires RegOk(sh) && Allowed(sh, who, lock, e) && sh.PlayerOn(c) != None
    ensures Do(sh, e).PlayerOn(c) == sh.PlayerOn(c)
  {
    hide SaveGame, CreateGame, TouchPlayer, DeletePlayer, DeleteGame, Send, Close, SaveOk, MaySit, Sendable;
    assert c in sh.reg.link;
  }

  lemma StepFixes(w: World, e: Event)
    requires Inv(w) && Enabled(w, e)
    ensures forall c :: w.sh.PlayerOn(c) != None ==> Step(w, e).sh.PlayerOn(c) == w.sh.PlayerOn(c)
  {
    hide LockInv, Justified, DbOk, SeatsHeld, LogsOk, HistoriesOk, RegOk, Does, Do, Enabled, Step, Allowed,
        Shared.PlayerOn;
    StepAllowed(w, e);
    StepDo(w, e);
    forall c | w.sh.PlayerOn(c) != None ensures Step(w, e).sh.PlayerOn(c) == w.sh.PlayerOn(c) {
      DoFixes(w.sh, Mover(e), Holding(w, e), Does(w, e), c);
    }
  }

  ghost predicate AllSpare(w: World) {
    forall t, g :: IsInside(w, t, g) ==> Spares(w.sh, t, g, w.Phase(t).Doing())
  }

  lemma StartSpares(sh: Shared, t: Tid, g: GameId, i: InPc)
    requires Starting(i)
    ensures Spares(sh, t, g, i)
  {
  }

  lemma OwnSpares(w: World, t: Tid, ch: Choice, g: GameId)
    requires Inv(w) && CanRun(w, t, ch) && AllSpare(w) && IsInside(RunThread(w, t, ch), t, g)
    ensures Spares(RunThread(w, t, ch).sh, t, g, RunThread(w, t, ch).Phase(t).Doing())
  {
    hide LockInv, Global, Justified, Free, Body, Spares, ListsConns, CanPass, StartOk, InOk, OutOk, Local, Rely;
    PhaseOf(w, t);
    match w.Phase(t)
    case Waiting(h, _, i) =>
      StartsPlain(w.sh, t, h, i);
      StartSpares(w.sh, t, h, i);
    case Inside(h, _, i) =>
      assert IsInside(w, t, h);
      BodyOf(w, t, ch);
      BodySpares(w.sh, t, h, w.Served(t), i, ch);
    case _ =>
  }

  lemma StepSpares(w: World, e: Event)
    requires Inv(w) && Enabled(w, e) && AllSpare(w)
    ensures AllSpare(Step(w, e))
  {
    hide Inv, Spares, RunThread, Environment, CanPass, ListsConns;
    StepFixes(w, e);
    forall s, g | IsInside(Step(w, e), s, g) ensures Spares(Step(w, e).sh, s, g, Step(w, e).Phase(s).Doing()) {
      match e
      case Go(t, ch) =>
        RunThreads(w, t, ch);
        if s == t {
          OwnSpares(w, t, ch, g);
        } else {
          assert IsInside(w, s, g);
          HolderElsewhere(w, e, s, g);
          AttachedKept(w, e, g);
          SparesStays(w.sh, Step(w, e).sh, s, g, w.Phase(s).Doing());
        }
      case _ =>
        EnvironmentOf(w, e);
        SameInside(w, Step(w, e));
        assert IsInside(w, s, g);
        AttachedKept(w, e, g);
        SparesStays(w.sh, Step(w, e).sh, s, g, w.Phase(s).Doing());
    }
  }

  lemma InitSpares(w: World)
    requires Init(w)
    ensures AllSpare(w)
  {
  }

  lemma AlwaysSpares(w: World)
    requires Reached(w)
    ensures AllSpare(w)
  {
    hide *;
    forall v | Init(v) ensures AllSpare(v) {
      InitSpares(v);
    }
    forall u, e | Inv(u) && AllSpare(u) && Enabled(u, e) ensures AllSpare(Step(u, e)) {
      StepSpares(u, e);
    }
    AlwaysKept(w, AllSpare);
  }

  /**
   * Whoever connects, asks for a rematch, declines one or leaves is not told of it by an event, nor is a player who
   * expires: these events go to other connections only.
   */
  lemma DoersAreNotTold(w: World, t: Tid, ch: Choice, g: GameId, d: ConnId, m: Msg)
    requires Reached(w) && IsInside(w, t, g) && Does(w, Go(t, ch)) == Say(d, m) && Announces(m)
    ensures Other(w.sh, t, w.Phase(t).Doing(), d)
  {
    hide Reached, Announces, FreeDoes, Other, OthersThere;
    AlwaysSpares(w);
    assert Spares(w.sh, t, g, w.Phase(t).Doing());
    match w.Phase(t).Doing()
    case Sends(todo, msgs, seats, next, _) => RenderedAnnounces(msgs[next], seats, d);
  }

  lemma RenderedAnnounces(m: Msg, seats: map<ConnId, Seat>, d: ConnId)
    ensures Announces(Rendered(m, seats, d)) <==> Announces(m)
  {
  }
}
