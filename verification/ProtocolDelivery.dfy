/**
 * What a save announces reaches everybody it concerns: by the time its goroutine gives up the lock of the game, every
 * connection that was attached has been sent the news, or is closing.
 */
module ProtocolDelivery {
  import opened Wrappers
  import opened Rules
  import opened Store
  import opened Registry
  import opened Snapshots
  import opened Protocol
  import opened ProtocolDoes
  import opened ProtocolLocks
  import opened ProtocolInvariant
  import opened ProtocolRely
  import opened ProtocolEffects
  import opened ProtocolStoreEffects
  import opened ProtocolNext
  import opened ProtocolSafety
  import opened ProtocolRounds
  import opened ProtocolReasons

  /** An event, or the snapshot of a game after some number of saves. */
  datatype News = Event(Msg) | LastState(GameId, nat)

  predicate Brings(m: Msg, n: News) {
    match n
    case Event(e) => m == e
    case LastState(g, v) => (match m case StateIs(s) => s.game == g && s.version == v case _ => false)
  }

  /** From some place on, the log has the news. */
  predicate Has(log: seq<Msg>, from: int, n: News) {
    exists i :: 0 <= from <= i < |log| && Brings(log[i], n)
  }

  predicate Told(sh: Shared, d: ConnId, n: News, from: int) {
    sh.Closing(d) || Has(sh.Log(d), from, n)
  }

  predicate OverOr(n: News, g: GameId, v: nat, reason: Reason, side: Seat) {
    n == Event(GameOver(reason, side)) || n == LastState(g, v)
  }

  predicate OwedThen(sh: Shared, t: Tid, g: GameId, k: Then, d: ConnId, n: News) {
    && d in sh.reg.Attached(g)
    && match k
       case ThenTell(e, _, _) => n == Event(e) && t != Reader(d)
       case ThenClose(reason, side, _, v, _) => OverOr(n, g, v, reason, side)
       case _ => false
  }

  /** The holder of the lock of g is still to tell connection d. */
  predicate OwedIn(sh: Shared, t: Tid, g: GameId, i: InPc, d: ConnId, n: News) {
    match i
    case ActDetach(seat, _, v) => d in sh.reg.Attached(g) && t != Reader(d) && OverOr(n, g, v, PlayerLeft, seat)
    case Tell(e, _, _) => d in sh.reg.Attached(g) && t != Reader(d) && n == Event(e)
    case CloseView(reason, side, _, v, _) => d in sh.reg.Attached(g) && OverOr(n, g, v, reason, side)
    case CloseList(reason, side, _, v, viewed, _) =>
      d in sh.reg.Attached(g) && OverOr(n, g, v, reason, side) && (n.LastState? ==> viewed.Some?)
    case ExpDetach(p, _, _, seat, _, v) =>
      d in sh.reg.Attached(g) && sh.PlayerOn(d) != Some(p) && OverOr(n, g, v, PlayerExpired, seat)
    case Sends(todo, msgs, _, next, k) =>
      || (d in todo && Has(msgs, if todo[0] == d then next else 0, n))
      || OwedThen(sh, t, g, k, d, n)
    case _ => false
  }

  /** Connection d has been told, or will be. */
  predicate Due(sh: Shared, t: Tid, g: GameId, i: InPc, d: ConnId, n: News, from: int) {
    d in sh.chan && 0 <= from <= |sh.Log(d)| && (Told(sh, d, n, from) || OwedIn(sh, t, g, i, d, n))
  }

  // ----- Logs only grow -----

  lemma DoGrows(sh: Shared, e: Effect, d: ConnId)
    requires d in sh.chan && match e case Meet(c) => c !in sh.chan case _ => true
    ensures d in Do(sh, e).chan && sh.Log(d) <= Do(sh, e).Log(d) && (sh.Closing(d) ==> Do(sh, e).Closing(d))
  {
    hide Bind, Forget, Attach, Detach, DetachSet, AddConn, SaveGame, CreateGame, TouchPlayer, DeletePlayer, DeleteGame;
  }

  lemma ToldStays(sh: Shared, sh': Shared, d: ConnId, n: News, from: int)
    requires Told(sh, d, n, from) && sh.Log(d) <= sh'.Log(d) && (sh.Closing(d) ==> sh'.Closing(d))
    ensures Told(sh', d, n, from)
  {
    hide Brings, Shared.Closing;
    if !sh.Closing(d) {
      var i :| 0 <= from <= i < |sh.Log(d)| && Brings(sh.Log(d)[i], n);
      assert sh'.Log(d)[i] == sh.Log(d)[i];
    }
  }

  /** Sending the news tells it, unless the connection closes. */
  lemma SendTells(sh: Shared, d: ConnId, m: Msg, n: News, from: int)
    requires d in sh.chan && 0 <= from <= |sh.Log(d)| && Brings(m, n)
    ensures Told(sh.Sent(d, m), d, n, from)
  {
    hide Brings;
    var sh' := sh.Sent(d, m);
    if !sh'.Closing(d) {
      assert sh'.Log(d)[|sh.Log(d)|] == m;
    }
  }

  lemma RenderedBrings(m: Msg, seats: map<ConnId, Seat>, d: ConnId, n: News)
    requires Brings(m, n) && (match n case Event(e) => !e.StateIs? case _ => true)
    ensures Brings(Rendered(m, seats, d), n)
  {
  }

  // ----- The holder of the lock -----

  /** News is an event or a final snapshot. */
  predicate Plain(n: News) {
    match n
    case Event(e) => !e.StateIs?
    case LastState(_, _) => true
  }

  lemma SendsDue(sh: Shared, t: Tid, g: GameId, sv: Serving, todo: seq<ConnId>, msgs: seq<Msg>, seats: map<ConnId,
      Seat>,
                 next: nat, k: Then, d: ConnId, n: News, from: int)
    requires Due(sh, t, g, Sends(todo, msgs, seats, next, k), d, n, from) && Plain(n) && next < |msgs|
    ensures var to := SendNext(sh, todo, msgs, seats, next, k, sv); Due(to.sh, t, g, to.pc, d, n, from)
  {
    hide Brings, Rendered, Plain, OverOr;
    if todo != [] {
      var m := Rendered(msgs[next], seats, todo[0]);
      var sh' := sh.Sent(todo[0], m);
      SentGrows(sh, todo[0], m, d);
      if Told(sh, d, n, from) {
        ToldStays(sh, sh', d, n, from);
      } else if todo[0] == d && Brings(msgs[next], n) {
        RenderedBrings(msgs[next], seats, d, n) by {
          PlainEvent(n);
        }
        SendTells(sh, d, m, n, from);
      } else {
        OwedRest(sh, t, g, todo, msgs, seats, next, k, d, n);
      }
    }
  }

  lemma PlainEvent(n: News)
    requires Plain(n)
    ensures match n case Event(e) => !e.StateIs? case _ => true
  {
  }

  lemma SentGrows(sh: Shared, c: ConnId, m: Msg, d: ConnId)
    requires d in sh.chan
    ensures
      var sh' := sh.Sent(c, m);
      d in sh'.chan && sh.Log(d) <= sh'.Log(d) && (sh.Closing(d) ==> sh'.Closing(d)) && sh'.reg == sh.reg
  {
  }

  /** What is left of a loop after a message that is not the news for d. */
  lemma OwedRest(sh: Shared, t: Tid, g: GameId, todo: seq<ConnId>, msgs: seq<Msg>, seats: map<ConnId, Seat>, next: nat,
                 k: Then, d: ConnId, n: News)
    requires OwedIn(sh, t, g, Sends(todo, msgs, seats, next, k), d, n) && todo != [] && next < |msgs|
    requires todo[0] == d ==> !Brings(msgs[next], n)
    ensures
      var sh' := sh.Sent(todo[0], Rendered(msgs[next], seats, todo[0]));
      var to := if next + 1 < |msgs| then Sends(todo, msgs, seats, next + 1, k)
                else if |todo| > 1 then SendAll(todo[1..], msgs, seats, k) else Following(k);
      OwedIn(sh', t, g, to, d, n)
  {
    hide Brings, Rendered, OverOr, Send;
  }

  lemma HasFirst(e: Msg, rest: seq<Msg>, n: News)
    requires Brings(e, n)
    ensures Has([e] + rest, 0, n)
  {
    assert ([e] + rest)[0] == e;
  }

  lemma HasFinal(reason: Reason, side: Seat, g: GameId, v: nat, viewed: Option<GameView>, n: News)
    requires OverOr(n, g, v, reason, side) && (n.LastState? ==> viewed.Some?)
    ensures Has([GameOver(reason, side)] + Final(g, v, viewed), 0, n)
  {
    var msgs := [GameOver(reason, side)] + Final(g, v, viewed);
    if n.LastState? {
      assert Brings(msgs[1], n);
    } else {
      assert Brings(msgs[0], n);
    }
  }

  lemma OthersListed(sh: Shared, t: Tid, g: GameId, conns: seq<ConnId>, d: ConnId)
    requires d in sh.reg.Attached(g) && t != Reader(d)
    requires Lists(conns, sh.reg.Attached(g) - (if t.Reader? then {t.Mine()} else {}))
    ensures d in conns
  {
  }

  lemma LeftAttached(r: Reg<ConnId>, c: ConnId, g: GameId, cs: set<ConnId>)
    ensures r.Attached(g) - {c} <= Detach(r, c).Attached(g) && r.Attached(g) - cs <= DetachSet(r, g, cs).Attached(g)
  {
  }

  /** Who is owed the news is still owed it, or has its turn in a loop. */
  lemma OwedNext(sh: Shared, t: Tid, g: GameId, sv: Serving, i: InPc, ch: Choice, d: ConnId, n: News)
    requires OwedIn(sh, t, g, i, d, n) && ListsConns(sh, t, g, i, ch) && !i.Sends? && (n.LastState? ==> !ch.fail)
    requires i.ActDetach? ==> t.Reader?
    ensures var to := Body(sh, t, g, sv, i, ch); OwedIn(to.sh, t, g, to.pc, d, n)
  {
    hide Detach, DetachSet, Shared.View, Shared.SeatsIn, Lists, Final, Has;
    match i
    case ActDetach(_, _, _) =>
      assert t == Reader(t.Mine());
      LeftAttached(sh.reg, t.Mine(), g, {});
    case Tell(e, _, _) =>
      OthersListed(sh, t, g, ch.conns, d);
      HasFirst(e, [], n);
      assert [e] + [] == [e];
    case CloseView(_, _, _, _, _) =>
    case CloseList(reason, side, _, v, viewed, _) =>
      HasFinal(reason, side, g, v, viewed, n);
      AllListed(ch.conns, sh.reg.Attached(g), d);
    case ExpDetach(p, _, _, _, _, _) =>
      LeftAttached(sh.reg, 0, g, set c | c in sh.reg.Attached(g) && sh.PlayerOn(c) == Some(p));
  }

  lemma AllListed(conns: seq<ConnId>, all: set<ConnId>, d: ConnId)
    requires Lists(conns, all) && d in all
    ensures d in conns
  {
  }

  lemma BodyDue(sh: Shared, t: Tid, g: GameId, sv: Serving, i: InPc, ch: Choice, d: ConnId, n: News, from: int)
    requires Due(sh, t, g, i, d, n, from) && ListsConns(sh, t, g, i, ch) && Plain(n) && (n.LastState? ==> !ch.fail)
    requires Local(sh, t, g, i) && (i.ActDetach? ==> t.Reader?)
    ensures var to := Body(sh, t, g, sv, i, ch); Due(to.sh, t, g, to.pc, d, n, from)
  {
    hide Body, BodyDoes, Do, ListsConns, OwedIn, Told, Plain, Local;
    if i.Sends? {
      LoopDue(sh, t, g, sv, i.todo, i.msgs, i.seats, i.next, i.after, ch, d, n, from);
    } else {
      BodyDo(sh, t, g, sv, i, ch);
      NotMeeting(sh, t, g, i, ch);
      DoGrows(sh, BodyDoes(sh, t, g, i, ch), d);
      if Told(sh, d, n, from) {
        ToldStays(sh, Body(sh, t, g, sv, i, ch).sh, d, n, from);
      } else {
        OwedNext(sh, t, g, sv, i, ch, d, n);
      }
    }
  }

  lemma LoopDue(sh: Shared, t: Tid, g: GameId, sv: Serving, todo: seq<ConnId>, msgs: seq<Msg>, seats: map<ConnId, Seat>,
                next: nat, k: Then, ch: Choice, d: ConnId, n: News, from: int)
    requires Due(sh, t, g, Sends(todo, msgs, seats, next, k), d, n, from) && Plain(n)
    requires Local(sh, t, g, Sends(todo, msgs, seats, next, k))
    ensures
      var to := Body(sh, t, g, sv, Sends(todo, msgs, seats, next, k), ch);
      Due(to.sh, t, g, to.pc, d, n, from)
  {
    hide Body, Due, Plain, Local, SendNext;
    SendsOf(sh, t, g, todo, msgs, seats, next, k);
    SendsStep(sh, t, g, sv, todo, msgs, seats, next, k, ch);
    SendsDue(sh, t, g, sv, todo, msgs, seats, next, k, d, n, from);
  }

  lemma SendsStep(sh: Shared, t: Tid, g: GameId, sv: Serving, todo: seq<ConnId>, msgs: seq<Msg>,
                  seats: map<ConnId, Seat>, next: nat, k: Then, ch: Choice)
    ensures Body(sh, t, g, sv, Sends(todo, msgs, seats, next, k), ch) == SendNext(sh, todo, msgs, seats, next, k, sv)
  {
  }

  lemma NotMeeting(sh: Shared, t: Tid, g: GameId, i: InPc, ch: Choice)
    ensures !BodyDoes(sh, t, g, i, ch).Meet?
  {
  }

  // ----- The steps of others -----

  lemma OtherDue(w: World, e: Event, t: Tid, g: GameId, d: ConnId, n: News, from: int)
    requires Inv(w) && Enabled(w, e) && IsInside(w, t, g) && Mover(e) != Some(t)
    requires Due(w.sh, t, g, w.Phase(t).Doing(), d, n, from)
    ensures Due(Step(w, e).sh, t, g, w.Phase(t).Doing(), d, n, from)
  {
    hide Inv, Enabled, Step, Does, Do, Told, OwedIn;
    StepDo(w, e);
    MeetsNew(w, e);
    DoGrows(w.sh, Does(w, e), d);
    if Told(w.sh, d, n, from) {
      ToldStays(w.sh, Step(w, e).sh, d, n, from);
    } else {
      HolderElsewhere(w, e, t, g);
      AttachedKept(w, e, g);
      if d in w.sh.reg.Attached(g) {
        PlayerStays(w, e, g, d);
      }
      OwedStays(w.sh, Step(w, e).sh, t, g, w.Phase(t).Doing(), d, n);
    }
  }

  lemma MeetsNew(w: World, e: Event)
    requires Enabled(w, e)
    ensures match Does(w, e) case Meet(c) => c !in w.sh.chan case _ => true
  {
    hide CanPass, ListsConns;
  }

  lemma HolderElsewhere(w: World, e: Event, t: Tid, g: GameId)
    requires Inv(w) && IsInside(w, t, g) && Mover(e) != Some(t) && Enabled(w, e)
    ensures Holding(w, e) != Some(g)
  {
    hide Inv, CanPass, ListsConns;
    match e
    case Go(s, _) =>
      if Holding(w, e) == Some(g) {
        OneInside(w, s, t, g);
      }
    case _ =>
  }

  /** An attached connection stays on its player. */
  lemma PlayerStays(w: World, e: Event, g: GameId, d: ConnId)
    requires Inv(w) && Enabled(w, e) && d in w.sh.reg.Attached(g) && d in w.sh.chan
    ensures forall p :: Step(w, e).sh.PlayerOn(d) == Some(p) ==> w.sh.PlayerOn(d) == Some(p)
  {
    hide LockInv, Justified, DbOk, LogsOk, HistoriesOk, Does, Do, Enabled, Step, SaveOk, MaySit, Sendable;
    StepDo(w, e);
    StepAllowed(w, e);
    assert d in w.sh.reg.link && w.sh.Place(d).In(g);
    assert match Does(w, e) case Enter(c, _) => c != d case _ => true;
    forall p | Step(w, e).sh.PlayerOn(d) == Some(p) ensures w.sh.PlayerOn(d) == Some(p) {
      if w.sh.PlayerOn(d) != Some(p) {
        DoEnters(w.sh, Does(w, e), d, p);
        assert false;
      }
    }
  }

  lemma OwedStays(sh: Shared, sh': Shared, t: Tid, g: GameId, i: InPc, d: ConnId, n: News)
    requires OwedIn(sh, t, g, i, d, n) && sh'.reg.Attached(g) == sh.reg.Attached(g)
    requires d in sh.reg.Attached(g) ==> forall p :: sh'.PlayerOn(d) == Some(p) ==> sh.PlayerOn(d) == Some(p)
    ensures OwedIn(sh', t, g, i, d, n)
  {
    hide OverOr, Has, Shared.PlayerOn;
  }

  // ----- From the save to the release of the lock -----

  /** The goroutine is about to save that player p leaves game g, of which it has a seat, because the player expires. */
  predicate Expels(phase: Phase, p: PlayerId, side: Seat) {
    phase.Inside? && match phase.Doing() case ExpSave(q, _, _, _, seat) => q == p && seat == side case _ => false
  }

  /** Somebody leaves game g: the player who acts, or the one who expires; connection d is not theirs. */
  ghost predicate Parts(w: World, t: Tid, g: GameId, d: ConnId, reason: Reason, side: Seat) {
    match reason
    case PlayerLeft => t.Reader? && t != Reader(d) && w.sh.Place(t.Mine()) == At(g, side)
    case PlayerExpired => exists p: PlayerId :: Expels(w.Phase(t), p, side) && w.sh.PlayerOn(d) != Some(p)
  }

  /** The save of a game that goroutine t is about to make concerns connection d: it is to get the news. */
  ghost predicate Promised(w: World, t: Tid, ch: Choice, g: GameId, d: ConnId, n: News) {
    d in w.sh.reg.Attached(g) && match Does(w, Go(t, ch))
      case Save(h, row, actor, now, commit, _) =>
        && h == g && SaveGame(w.sh.db, g, row, actor, now).Success?
        && (match commit
            case Changed(AskRematch(seat)) =>
              row.state.status != Active && t != Reader(d) && n == Event(RematchRequested(seat))
            case Changed(Decline(seat)) => t != Reader(d) && n == Event(RematchDeclined(seat))
            case Changed(Leave) =>
              exists reason, side :: Parts(w, t, g, d, reason, side) && OverOr(n, g, w.sh.Version(g) + 1, reason, side)
            case _ => false)
      case _ => false
  }

  /** What follows the save of a game action. */
  lemma ActDue(w: World, t: Tid, g: GameId, l: LockRef, a: Action, seat: Seat, p: PlayerId, copy: Game, ch: Choice,
               d: ConnId, n: News)
    requires w.Phase(t) == Inside(g, l, ActSave(a, seat, p, copy)) && Promised(w, t, ch, g, d, n) && d in w.sh.chan
    requires t.Reader? && a.NeedsGame() && w.sh.Place(t.Mine()) == At(g, seat) && g in w.sh.saves
    ensures
      var to := Body(w.sh, t, g, w.Served(t), ActSave(a, seat, p, copy), ch);
      Due(to.sh, t, g, to.pc, d, n, |w.sh.Log(d)|)
  {
    hide SaveGame, Told;
  }

  lemma ExpiryDue(w: World, t: Tid, g: GameId, l: LockRef, p: PlayerId, todo: seq<GameId>, mark: int, copy: Game,
                  seat: Seat, ch: Choice, d: ConnId, n: News)
    requires w.Phase(t) == Inside(g, l, ExpSave(p, todo, mark, copy, seat)) && Promised(w, t, ch, g, d, n)
    requires d in w.sh.chan && t == Sweeper && g in w.sh.saves
    ensures
      var to := Body(w.sh, t, g, w.Served(t), ExpSave(p, todo, mark, copy, seat), ch);
      Due(to.sh, t, g, to.pc, d, n, |w.sh.Log(d)|)
  {
    hide SaveGame, Told;
  }

  lemma SaveDue(w: World, t: Tid, ch: Choice, g: GameId, d: ConnId, n: News)
    requires Inv(w) && CanRun(w, t, ch) && Promised(w, t, ch, g, d, n)
    ensures
      var w' := RunThread(w, t, ch);
      IsInside(w', t, g) && Due(w'.sh, t, g, w'.Phase(t).Doing(), d, n, |w.sh.Log(d)|) && Plain(n)
  {
    hide Inv, Promised, Due, Free, Body, ListsGames, ListsConns, CopyOk, Rely;
    PromiseIs(w, t, ch, g, d, n);
    BodyOf(w, t, ch);
    KnownHere(w, g, d);
    match w.Phase(t)
    case Inside(_, l, i) =>
      SaverIs(w.sh, t, g, i);
      match i {
        case ActSave(a, seat, p, copy) => ActDue(w, t, g, l, a, seat, p, copy, ch, d, n);
        case ExpSave(p, todo, mark, copy, seat) => ExpiryDue(w, t, g, l, p, todo, mark, copy, seat, ch, d, n);
      }
  }

  /** Only a save that changes the state under the lock of the game promises anything. */
  lemma PromiseIs(w: World, t: Tid, ch: Choice, g: GameId, d: ConnId, n: News)
    requires Promised(w, t, ch, g, d, n)
    ensures Plain(n) && d in w.sh.reg.Attached(g)
    ensures match w.Phase(t) case Inside(h, _, i) => h == g && (i.ActSave? || i.ExpSave?) case _ => false
  {
    hide SaveGame, AttemptOf, Parts;
    SavesInside(w, t, ch);
  }

  lemma SavesInside(w: World, t: Tid, ch: Choice)
    ensures match Does(w, Go(t, ch))
      case Save(g, _, _, _, commit, _) =>
        (match w.Phase(t)
         case Inside(h, _, i) => h == g && (i.ActSave? || i.ExpSave? || commit in {Reconnected, Changed(Join)})
         case _ => false)
      case _ => true
  {
    hide AttemptOf;
  }

  lemma KnownHere(w: World, g: GameId, d: ConnId)
    requires Inv(w) && d in w.sh.reg.Attached(g)
    ensures d in w.sh.chan && g in w.sh.saves
  {
    hide LockInv, Justified, DbOk, LogsOk, HistoriesOk;
    assert d in w.sh.reg.link && w.sh.Place(d).In(g);
  }

  lemma SaverIs(sh: Shared, t: Tid, g: GameId, i: InPc)
    requires Local(sh, t, g, i)
    ensures match i
      case ActSave(a, seat, _, _) => t.Reader? && a.NeedsGame() && sh.Place(t.Mine()) == At(g, seat)
      case ExpSave(_, _, _, _, _) => t == Sweeper
      case ActDetach(_, _, _) => t.Reader?
      case _ => true
  {
    hide StartOk, Covers, SeatCopied, Live, RowIs, Apply, AttemptOf, JoinGame, CloseGame, MsgsOk, ThenOk;
  }

  /** While goroutine t is inside the lock of g, connection d is told or due to be. */
  ghost predicate DueInside(w: World, t: Tid, g: GameId, d: ConnId, n: News, from: int) {
    IsInside(w, t, g) ==> Due(w.sh, t, g, w.Phase(t).Doing(), d, n, from)
  }

  /** The goroutine is inside the lock; the store works for it, if the news is a snapshot. */
  predicate Within(w: World, e: Event, t: Tid, g: GameId, n: News) {
    IsInside(w, t, g) && match e case Go(s, ch) => s == t && n.LastState? ==> !ch.fail case _ => true
  }

  lemma OwnDue(w: World, t: Tid, ch: Choice, g: GameId, d: ConnId, n: News, from: int)
    requires Inv(w) && CanRun(w, t, ch) && IsInside(w, t, g) && Within(w, Go(t, ch), t, g, n) && Plain(n)
    requires Due(w.sh, t, g, w.Phase(t).Doing(), d, n, from)
    ensures DueInside(RunThread(w, t, ch), t, g, d, n, from)
  {
    hide Inv, Free, Body, Due, ListsGames, Plain, Local, Rely, ListsConns;
    BodyOf(w, t, ch);
    match w.Phase(t)
    case Inside(_, _, i) =>
      SaverIs(w.sh, t, g, i);
      if !i.LeaveLock? {
        BodyDue(w.sh, t, g, w.Served(t), i, ch, d, n, from);
      }
  }

  lemma StepDue(w: World, e: Event, t: Tid, g: GameId, d: ConnId, n: News, from: int)
    requires Inv(w) && Enabled(w, e) && Within(w, e, t, g, n) && Plain(n) && DueInside(w, t, g, d, n, from)
    ensures DueInside(Step(w, e), t, g, d, n, from)
  {
    hide Inv, RunThread, Environment, Due, CanPass, ListsConns, Plain;
    match e
    case Go(s, ch) =>
      if s == t {
        OwnDue(w, t, ch, g, d, n, from);
      } else {
        StaysPut(w, e, t);
        OtherDue(w, e, t, g, d, n, from);
      }
    case _ =>
      StaysPut(w, e, t);
      OtherDue(w, e, t, g, d, n, from);
  }

  /**
   * What a save announces reaches everybody it concerns. When a request for a rematch, its refusal, or the end of a
   * game has been saved, then by the time its goroutine is about to give up the lock of the game, every connection that
   * was attached, but for those of the player who did it, has been sent the event since, or is closing. When a game
   * has ended and the store works, that holds of its final snapshot, too.
   */
  lemma NewsReachesEverybody(w: World, t: Tid, ch: Choice, g: GameId, d: ConnId, n: News, x: World)
    requires Reached(w) && Enabled(w, Go(t, ch)) && Promised(w, t, ch, g, d, n)
    requires LeadsBy(Step(w, Go(t, ch)), x, (u, e) => Within(u, e, t, g, n))
    requires IsInside(x, t, g) && x.Phase(t).Doing().LeaveLock?
    ensures Told(x.sh, d, n, |w.sh.Log(d)|)
  {
    hide Reached, Inv, LeadsBy, Step, Within, Due, Promised, Plain, Enabled, Told;
    Always(w);
    StepInv(w, Go(t, ch));
    FirstDue(w, t, ch, g, d, n);
    var from, good := |w.sh.Log(d)|, (u, e) => Within(u, e, t, g, n);
    forall u, e | Inv(u) && DueInside(u, t, g, d, n, from) && Enabled(u, e) && good(u, e)
      ensures DueInside(Step(u, e), t, g, d, n, from)
    {
      StepDue(u, e, t, g, d, n, from);
    }
    KeptBy(Step(w, Go(t, ch)), x, good, u => DueInside(u, t, g, d, n, from));
    LeavingTold(x.sh, t, g, x.Phase(t).Doing(), d, n, from);
  }

  lemma FirstDue(w: World, t: Tid, ch: Choice, g: GameId, d: ConnId, n: News)
    requires Inv(w) && Enabled(w, Go(t, ch)) && Promised(w, t, ch, g, d, n)
    ensures DueInside(Step(w, Go(t, ch)), t, g, d, n, |w.sh.Log(d)|) && Plain(n)
  {
    hide Inv, CanRun, RunThread, Promised, Due, Plain;
    SaveDue(w, t, ch, g, d, n);
  }

  lemma LeavingTold(sh: Shared, t: Tid, g: GameId, i: InPc, d: ConnId, n: News, from: int)
    requires Due(sh, t, g, i, d, n, from) && i.LeaveLock?
    ensures Told(sh, d, n, from)
  {
    hide Told;
  }
}
