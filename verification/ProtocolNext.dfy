/** After a step under a game lock, the goroutine's next control state is justified. */
module ProtocolNext {
  import opened Wrappers
  import opened Timestamps
  import opened Rules
  import opened Store
  import opened Registry
  import opened Snapshots
  import opened Protocol
  import opened ProtocolInvariant
  import opened ProtocolRely
  import opened ProtocolEffects
  import opened ProtocolStoreEffects
  import opened ProtocolFree
  import opened ProtocolBody

  lemma LocalOf(sh: Shared, t: Tid, g: GameId, i: InPc)
    requires InOk(sh, t, g, i)
    ensures Local(sh, t, g, i) && OnwardOk(sh, t, i)
  {
    hide AttachedOk, ToldOk, Local, OnwardOk;
  }

  /** The stored game and what its connections were sent stay, and nobody becomes due to know more. */
  ghost predicate Calm(sh: Shared, sh': Shared, t: Tid, g: GameId, i: InPc, i': InPc) {
    && sh'.db == sh.db && sh'.chan == sh.chan
    && (ClosingUp(i) ==> ClosingUp(i'))
    && (sh'.reg.Attached(g) <= sh.reg.Attached(g) || Live(sh, g))
    && (forall d :: d in sh'.reg.Attached(g) && g !in sh'.stale && !Untold(t, i', d) ==>
          d in sh.reg.Attached(g) && g !in sh.stale && !Untold(t, i, d))
  }

  lemma CalmKeeps(sh: Shared, sh': Shared, t: Tid, g: GameId, i: InPc, i': InPc)
    requires InOk(sh, t, g, i) && Calm(sh, sh', t, g, i, i')
    requires Local(sh', t, g, i') && OnwardOk(sh', t, i')
    ensures InOk(sh', t, g, i')
  {
    hide Local, OnwardOk, Untold, ClosingUp;
  }

  /** A save is announced to everybody, or leaves the state as it was. */
  lemma SavedKeeps(sh: Shared, sh': Shared, t: Tid, g: GameId, i: InPc, i': InPc, row: Game, commit: Commit)
    requires InOk(sh, t, g, i) && Live(sh, g) && SaveDone(sh, sh', g, row, commit)
    requires sh.State(g) == Some(row.state) || forall d :: Untold(t, i', d)
    requires forall d :: !Untold(t, i, d)
    requires ClosingUp(i') || row.state.status != Status.Closed
    requires Local(sh', t, g, i') && OnwardOk(sh', t, i')
    ensures InOk(sh', t, g, i')
  {
    hide Local, OnwardOk, Untold, ClosingUp;
  }

  /** Nobody is attached. */
  lemma EmptyKeeps(sh: Shared, t: Tid, g: GameId, i: InPc)
    requires sh.reg.Attached(g) == {} && Local(sh, t, g, i) && OnwardOk(sh, t, i)
    ensures InOk(sh, t, g, i)
  {
    hide Local, OnwardOk, ClosingUp, Untold, Informed, Live;
  }

  /** A goroutine leaves without having changed anything. */
  lemma MayLeave(sh: Shared, t: Tid, g: GameId, i: InPc, o: OutPc)
    requires InOk(sh, t, g, i) && (Starting(i) || (Copying(i) && !i.ConnAttach?)) && OutOk(sh, t, o)
    ensures InOk(sh, t, g, LeaveLock(o))
  {
    hide InOk, OutOk, Live;
    CalmKeeps(sh, sh, t, g, i, LeaveLock(o));
  }

  /** A refusal that is not about the connection's own fields. */
  lemma MayRefuse(sh: Shared, t: Tid, g: GameId, i: InPc, code: Code)
    requires InOk(sh, t, g, i) && (Starting(i) || (Copying(i) && !i.ConnAttach?)) && t.Reader?
    requires !code.NotAuthenticated? && !code.AlreadyAuthenticated? && !code.NotInGame?
    ensures InOk(sh, t, g, LeaveLock(SendErr(code)))
  {
    hide InOk, StartOk, DetachOk, Covers;
    MayLeave(sh, t, g, i, SendErr(code));
  }

  // ----- Connecting -----

  /** Loading a game and finding a seat fail for reasons of the game alone. */
  lemma ReloadRefuses(sh: Shared, t: Tid, g: GameId, p: PlayerId, digest: Digest, fail: bool, code: Code)
    requires InOk(sh, t, g, ConnReload(p, digest)) && t.Reader?
    requires match Load(sh, g, digest, fail)
      case Failure(e) => e == code
      case Success(row) => Seating(row, p) == Failure(code)
    ensures InOk(sh, t, g, LeaveLock(SendErr(code)))
  {
    hide InOk;
    MayRefuse(sh, t, g, ConnReload(p, digest), code);
  }

  lemma ReloadSeats(sh: Shared, t: Tid, g: GameId, p: PlayerId, digest: Digest, fail: bool, row: Game, i': InPc)
    requires InOk(sh, t, g, ConnReload(p, digest)) && SeatsHeld(sh) && t.Mine() in sh.reg.link
    requires Load(sh, g, digest, fail) == Success(row) && Seating(row, p) == Success(i')
    ensures InOk(sh, t, g, i')
  {
    hide InOk, RowOk, DetachOk, Covers;
    LocalOf(sh, t, g, ConnReload(p, digest));
    CalmKeeps(sh, sh, t, g, ConnReload(p, digest), i');
  }

  lemma AfterConnSave(sh: Shared, sh': Shared, t: Tid, g: GameId, i: InPc, p: PlayerId, copy: Game, row: Game,
                      seat: Seat, joined: bool, commit: Commit)
    requires i == ConnSave(p, copy, seat, joined) && InOk(sh, t, g, i) && SaveDone(sh, sh', g, row, commit)
    requires row == copy.(lastActive := row.lastActive)
    ensures InOk(sh', t, g, ConnAttach(seat, row, sh'.Version(g), joined))
  {
    hide InOk, StartOk, RowOk;
    LocalOf(sh, t, g, i);
    SavedKeeps(sh, sh', t, g, i, ConnAttach(seat, row, sh'.Version(g), joined), row, commit);
  }

  lemma AfterAttach(sh: Shared, sh': Shared, t: Tid, g: GameId, seat: Seat, row: Game, v: nat, joined: bool, was: bool)
    requires InOk(sh, t, g, ConnAttach(seat, row, v, joined)) && was == sh.Place(t.Mine()).In(g)
    requires sh' == sh.(reg := sh'.reg) && sh'.reg.Attached(g) == sh.reg.Attached(g) + {t.Mine()}
    ensures InOk(sh', t, g, ConnView(seat, row, v, joined, was))
  {
    hide InOk, StartOk;
    LocalOf(sh, t, g, ConnAttach(seat, row, v, joined));
    CalmKeeps(sh, sh', t, g, ConnAttach(seat, row, v, joined), ConnView(seat, row, v, joined, was));
  }

  lemma ViewFails(sh: Shared, t: Tid, g: GameId, i: InPc, o: OutPc)
    requires InOk(sh, t, g, i) && (i.ConnView? || i.CastView?) && OutOk(sh.(stale := sh.stale + {g}), t, o)
    ensures InOk(sh.(stale := sh.stale + {g}), t, g, LeaveLock(o))
  {
    hide InOk, OutOk, Live;
    CalmKeeps(sh, sh.(stale := sh.stale + {g}), t, g, i, LeaveLock(o));
  }

  lemma AfterView(sh: Shared, t: Tid, g: GameId, seat: Seat, row: Game, v: nat, joined: bool, was: bool, view: GameView,
                  rid: RequestId)
    requires InOk(sh, t, g, ConnView(seat, row, v, joined, was)) && t.Mine() in sh.chan && view.row == row
    ensures
      var k := if was then ThenLeave(Idle) else ThenConnList(seat, view, v);
      InOk(sh, t, g, SendAll([t.Mine()], [Direct(rid, OkConnected(Snap(g, v, view, seat)))], map[], k))
  {
    hide InOk, StartOk, CopyOk, RowIs, Live;
    var k := if was then ThenLeave(Idle) else ThenConnList(seat, view, v);
    var msgs := [Direct(rid, OkConnected(Snap(g, v, view, seat)))];
    LocalOf(sh, t, g, ConnView(seat, row, v, joined, was));
    assert SnapOf(msgs[0]).Some?;
    CalmKeeps(sh, sh, t, g, ConnView(seat, row, v, joined, was), SendAll([t.Mine()], msgs, map[], k));
  }

  lemma AfterConnList(sh: Shared, t: Tid, g: GameId, seat: Seat, view: GameView, v: nat, conns: seq<ConnId>)
    requires InOk(sh, t, g, ConnList(seat, view, v)) && sh.reg.Attached(g) <= sh.chan.Keys
    requires Lists(conns, sh.reg.Attached(g) - {t.Mine()})
    ensures InOk(sh, t, g,
        SendAll(conns, [OpponentConnected(seat), StateIs(Snap(g, v, view, seat.Other()))], map[], ThenLeave(Idle)))
  {
    hide InOk, StartOk, CopyOk, RowIs, Live;
    var msgs := [OpponentConnected(seat), StateIs(Snap(g, v, view, seat.Other()))];
    LocalOf(sh, t, g, ConnList(seat, view, v));
    assert SnapOf(msgs[1]).Some?;
    CalmKeeps(sh, sh, t, g, ConnList(seat, view, v), SendAll(conns, msgs, map[], ThenLeave(Idle)));
  }

  // ----- Acting -----

  lemma AfterActCheck(sh: Shared, t: Tid, g: GameId, a: Action)
    requires InOk(sh, t, g, ActCheck(a))
    ensures match (sh.Place(t.Mine()), sh.PlayerOn(t.Mine()))
      case (At(h, seat), Some(p)) => h == g && InOk(sh, t, g, ActLoad(a, seat, p))
      case _ => InOk(sh, t, g, LeaveLock(SendErr(NotInGame)))
  {
    hide InOk, RowOk, DetachOk, Covers;
    LocalOf(sh, t, g, ActCheck(a));
    match (sh.Place(t.Mine()), sh.PlayerOn(t.Mine()))
    case (At(h, seat), Some(p)) => CalmKeeps(sh, sh, t, g, ActCheck(a), ActLoad(a, seat, p));
    case _ => MayLeave(sh, t, g, ActCheck(a), SendErr(NotInGame));
  }

  lemma AfterActLoad(sh: Shared, t: Tid, g: GameId, a: Action, seat: Seat, p: PlayerId, row: Game)
    requires InOk(sh, t, g, ActLoad(a, seat, p)) && t.Mine() in sh.reg.Attached(g) && Get(sh.db.games, g) == Some(row)
    ensures match Apply(row.state, AttemptOf(a, seat))
      case Success(st) => InOk(sh, t, g, ActSave(a, seat, p, row.(state := st)))
      case Failure(e) => InOk(sh, t, g, LeaveLock(SendErr(Broken(e))))
  {
    hide InOk, StartOk, RowOk, Apply, AttemptOf;
    LocalOf(sh, t, g, ActLoad(a, seat, p));
    match Apply(row.state, AttemptOf(a, seat))
    case Success(st) =>
      LoadedOpen(sh, t, g, ActLoad(a, seat, p));
      CalmKeeps(sh, sh, t, g, ActLoad(a, seat, p), ActSave(a, seat, p, row.(state := st)));
    case Failure(e) => MayRefuse(sh, t, g, ActLoad(a, seat, p), Broken(e));
  }

  lemma LoadedOpen(sh: Shared, t: Tid, g: GameId, i: InPc)
    requires InOk(sh, t, g, i) && i.ActLoad? && sh.reg.Attached(g) != {}
    ensures Live(sh, g)
  {
    hide ToldOk, Local, OnwardOk, Live;
  }

  /** Leaving closes the game; no other action does. */
  lemma OnlyLeavingCloses(s: State, a: Action, seat: Seat, st: State)
    requires s.status != Status.Closed && a.NeedsGame() && Apply(s, AttemptOf(a, seat)) == Success(st)
    ensures st.status == Status.Closed <==> a.DoLeave?
  {
  }

  lemma AfterActSave(sh: Shared, sh': Shared, t: Tid, g: GameId, i: InPc, a: Action, seat: Seat, p: PlayerId,
      copy: Game,
                     row: Game, commit: Commit, rid: RequestId)
    requires i == ActSave(a, seat, p, copy) && InOk(sh, t, g, i) && SaveDone(sh, sh', g, row, commit)
    requires row == copy.(lastActive := row.lastActive) && t.Mine() in sh.chan
    ensures
      var v := sh'.Version(g);
      InOk(sh', t, g, if a.DoLeave? then ActDetach(seat, row, v)
                      else SendAll([t.Mine()], [Direct(rid, Ok)], map[], AfterOk(a, seat, row, v)))
  {
    hide InOk, StartOk, RowOk, Apply, AttemptOf, SaveDone;
    LocalOf(sh, t, g, i);
    OnlyLeavingCloses(sh.db.games[g].state, a, seat, copy.state);
    if a.DoLeave? {
      SavedLeaving(sh, sh', t, g, i, seat, row, commit);
    } else {
      SavedActing(sh, sh', t, g, i, a, seat, row, commit, rid);
    }
  }

  lemma SavedLeaving(sh: Shared, sh': Shared, t: Tid, g: GameId, i: InPc, seat: Seat, row: Game, commit: Commit)
    requires i.ActSave? && InOk(sh, t, g, i) && SaveDone(sh, sh', g, row, commit) && row.state.status == Status.Closed
    ensures InOk(sh', t, g, ActDetach(seat, row, sh'.Version(g)))
  {
    hide InOk, StartOk, Apply, AttemptOf, SeatCopied;
    LocalOf(sh, t, g, i);
    SavedKeeps(sh, sh', t, g, i, ActDetach(seat, row, sh'.Version(g)), row, commit);
  }

  lemma SavedActing(sh: Shared, sh': Shared, t: Tid, g: GameId, i: InPc, a: Action, seat: Seat, row: Game,
                    commit: Commit, rid: RequestId)
    requires i.ActSave? && InOk(sh, t, g, i) && SaveDone(sh, sh', g, row, commit) && row.state.status != Status.Closed
    requires t.Mine() in sh.chan
    ensures InOk(sh', t, g, SendAll([t.Mine()], [Direct(rid, Ok)], map[], AfterOk(a, seat, row, sh'.Version(g))))
  {
    hide InOk, StartOk, Apply, AttemptOf, SeatCopied;
    LocalOf(sh, t, g, i);
    SavedKeeps(sh, sh', t, g, i, SendAll([t.Mine()], [Direct(rid, Ok)], map[], AfterOk(a, seat, row, sh'.Version(g))),
        row, commit);
  }

  lemma AfterTell(sh: Shared, t: Tid, g: GameId, e: Msg, row: Game, v: nat, conns: seq<ConnId>)
    requires InOk(sh, t, g, Tell(e, row, v)) && sh.reg.Attached(g) <= sh.chan.Keys
    requires Lists(conns, sh.reg.Attached(g) - {t.Mine()})
    ensures InOk(sh, t, g, SendAll(conns, [e], map[], ThenBroadcast(row, v)))
  {
    hide InOk, StartOk, CopyOk, RowIs, Live;
    LocalOf(sh, t, g, Tell(e, row, v));
    CalmKeeps(sh, sh, t, g, Tell(e, row, v), SendAll(conns, [e], map[], ThenBroadcast(row, v)));
  }

  // ----- Telling everybody -----

  lemma AfterCastView(sh: Shared, t: Tid, g: GameId, row: Game, v: nat, view: GameView)
    requires InOk(sh, t, g, CastView(row, v)) && view.row == row
    ensures InOk(sh, t, g, CastList(view, v))
  {
    hide InOk, StartOk, CopyOk, RowIs, Live;
    LocalOf(sh, t, g, CastView(row, v));
    CalmKeeps(sh, sh, t, g, CastView(row, v), CastList(view, v));
  }

  lemma AfterCastList(sh: Shared, t: Tid, g: GameId, view: GameView, v: nat, conns: seq<ConnId>, seats: map<ConnId,
      Seat>)
    requires InOk(sh, t, g, CastList(view, v)) && sh.reg.Attached(g) <= sh.chan.Keys
    requires Lists(conns, sh.reg.Attached(g))
    ensures InOk(sh.(stale := sh.stale - {g}), t, g,
        SendAll(conns, [StateIs(Snap(g, v, view, Host))], seats, ThenLeave(Idle)))
  {
    hide InOk, StartOk, CopyOk, Live;
    var msgs := [StateIs(Snap(g, v, view, Host))];
    LocalOf(sh, t, g, CastList(view, v));
    assert SnapOf(msgs[0]).Some?;
    CalmKeeps(sh, sh.(stale := sh.stale - {g}), t, g, CastList(view, v), SendAll(conns, msgs, seats, ThenLeave(Idle)));
  }

  lemma AfterCloseView(sh: Shared, t: Tid, g: GameId, reason: Reason, side: Seat, row: Game, v: nat, o: OutPc,
                       viewed: Option<GameView>)
    requires InOk(sh, t, g, CloseView(reason, side, row, v, o))
        && match viewed case Some(view) => view.row == row case None => true
    ensures InOk(sh, t, g, CloseList(reason, side, row, v, viewed, o))
  {
    hide InOk, StartOk, CopyOk, RowIs, Live, OutOk;
    LocalOf(sh, t, g, CloseView(reason, side, row, v, o));
    CalmKeeps(sh, sh, t, g, CloseView(reason, side, row, v, o), CloseList(reason, side, row, v, viewed, o));
  }

  // ----- Detaching -----

  /** Detaching leaves alone what a goroutine asserts outside locks. */
  lemma OutAfterRely(sh: Shared, sh': Shared, t: Tid, g: GameId, o: OutPc)
    requires Rely(sh, sh', None, Some(g)) && OutOk(sh, t, o) && (t.Reader? ==> t.Mine() in sh.reg.link)
    ensures OutOk(sh', t, o)
  {
    hide Rely, OutOk, OwnKept;
    OwnStable(sh, sh', None, Some(g), t);
    OutStable(sh, sh', t, o);
  }

  lemma NoneAttached(sh: Shared, g: GameId)
    ensures DetachSet(sh.reg, g, sh.reg.Attached(g)).Attached(g) == {}
  {
  }

  lemma AfterCloseList(sh: Shared, t: Tid, g: GameId, i: InPc, reason: Reason, side: Seat, row: Game, v: nat,
                       viewed: Option<GameView>, o: OutPc, conns: seq<ConnId>, seats: map<ConnId, Seat>)
    requires i == CloseList(reason, side, row, v, viewed, o) && InOk(sh, t, g, i) && Global(sh)
    requires (t.Reader? ==> t.Mine() in sh.reg.link) && sh.reg.Attached(g) <= sh.chan.Keys
    requires Lists(conns, sh.reg.Attached(g))
    ensures InOk(sh.(reg := DetachSet(sh.reg, g, sh.reg.Attached(g))), t, g,
        SendAll(conns, [GameOver(reason, side)] + Final(g, v, viewed), seats, ThenLeave(o)))
  {
    hide InOk, StartOk, CopyOk, Live, OutOk, Global, Rely, DetachSet;
    var sh' := sh.(reg := DetachSet(sh.reg, g, sh.reg.Attached(g)));
    LocalOf(sh, t, g, i);
    DetachSetKeeps(sh, g, sh.reg.Attached(g), None);
    NoneAttached(sh, g);
    OutAfterRely(sh, sh', t, g, o);
    EmptyKeeps(sh', t, g, SendAll(conns, [GameOver(reason, side)] + Final(g, v, viewed), seats, ThenLeave(o)));
  }

  lemma FewerAttached(sh: Shared, d: ConnId, g: GameId)
    requires Global(sh) && d in sh.chan
    ensures Detach(sh.reg, d).Attached(g) == sh.reg.Attached(g) - {d}
  {
    hide DbOk, SeatsHeld, LogsOk, HistoriesOk;
    DetachAgrees(sh.reg, d);
  }

  lemma AfterActDetach(sh: Shared, t: Tid, g: GameId, seat: Seat, row: Game, v: nat, rid: RequestId)
    requires InOk(sh, t, g, ActDetach(seat, row, v)) && Global(sh) && t.Mine() in sh.chan
    ensures InOk(sh.(reg := Detach(sh.reg, t.Mine())), t, g,
        SendAll([t.Mine()], [Direct(rid, Ok)], map[], ThenClose(PlayerLeft, seat, row, v, Idle)))
  {
    hide InOk, StartOk, CopyOk, Live, Global, Detach;
    FewerAttached(sh, t.Mine(), g);
    LocalOf(sh, t, g, ActDetach(seat, row, v));
    CalmKeeps(sh, sh.(reg := Detach(sh.reg, t.Mine())), t, g, ActDetach(seat, row, v),
        SendAll([t.Mine()], [Direct(rid, Ok)], map[], ThenClose(PlayerLeft, seat, row, v, Idle)));
  }

  lemma DetachResumes(sh: Shared, t: Tid, g: GameId, d: ConnId, k: Resume)
    requires DetachOk(sh, t, d, k) && Global(sh) && sh.Place(d).In(g) && (t.Reader? ==> t.Mine() in sh.reg.link)
    ensures OutOk(sh.(reg := Detach(sh.reg, d)), t, Resumed(k))
  {
    var sh' := sh.(reg := Detach(sh.reg, d));
    assert d in sh.chan;
    hide Detach, OutOk, Resumed, Global, Rely, DetachOk, OwnKept;
    DetachKeeps(sh, d, g, None);
    OwnStable(sh, sh', None, Some(g), t);
    DetachStable(sh, sh', t, d, k);
    ResumedOk(sh', t, d, k);
  }

  lemma AfterDetach(sh: Shared, t: Tid, g: GameId, d: ConnId, tries: int, k: Resume, seat: Seat, conns: seq<ConnId>)
    requires InOk(sh, t, g, DetachCheck(d, tries, k)) && Global(sh) && sh.Place(d).In(g)
    requires (t.Reader? ==> t.Mine() in sh.reg.link) && forall c :: c in conns ==> c in sh.chan
    ensures InOk(sh.(reg := Detach(sh.reg, d)), t, g,
        SendAll(conns, [OpponentDisconnected(seat)], map[], ThenLeave(Resumed(k))))
  {
    hide InOk, RowOk, CopyOk, Live, Global, Detach, DetachOk, OutOk;
    LocalOf(sh, t, g, DetachCheck(d, tries, k));
    DetachedIsConn(sh, t, d, k);
    FewerAttached(sh, d, g);
    DetachResumes(sh, t, g, d, k);
    SendsEvents(sh.(reg := Detach(sh.reg, d)), t, g, conns, [OpponentDisconnected(seat)], ThenLeave(Resumed(k)));
    CalmKeeps(sh, sh.(reg := Detach(sh.reg, d)), t, g, DetachCheck(d, tries, k),
        SendAll(conns, [OpponentDisconnected(seat)], map[], ThenLeave(Resumed(k))));
  }

  lemma DetachedIsConn(sh: Shared, t: Tid, d: ConnId, k: Resume)
    requires DetachOk(sh, t, d, k)
    ensures d in sh.chan
  {
  }

  /** A loop that sends events without snapshots, and then leaves, asks little. */
  lemma SendsEvents(sh: Shared, t: Tid, g: GameId, conns: seq<ConnId>, msgs: seq<Msg>, k: Then)
    requires k.ThenLeave? && |msgs| > 0 && (forall d :: d in conns ==> d in sh.chan)
    requires forall m :: m in msgs ==> SnapOf(m).None? && !m.Direct?
    ensures Local(sh, t, g, SendAll(conns, msgs, map[], k))
  {
    hide StartOk, CopyOk;
  }

  lemma RetryDetach(sh: Shared, t: Tid, g: GameId, d: ConnId, tries: int, k: Resume)
    requires InOk(sh, t, g, DetachCheck(d, tries, k))
    ensures InOk(sh, t, g, LeaveLock(DetachRead(d, tries + 1, k)))
  {
    hide InOk, RowOk, CopyOk, DetachOk;
    LocalOf(sh, t, g, DetachCheck(d, tries, k));
    MayLeave(sh, t, g, DetachCheck(d, tries, k), DetachRead(d, tries + 1, k));
  }

  // ----- Expiring -----

  /** A game in which the player has no open seat need not be covered. */
  lemma Uncovered(sh: Shared, p: PlayerId, g: GameId, todo: seq<GameId>, mark: int)
    requires Covers(sh, p, [g] + todo, mark) && !(g in sh.db.games && Seated(sh.db.games[g], p))
    ensures Covers(sh, p, todo, mark)
  {
    if sh.Seatings(p) == mark {
      forall h | h in sh.db.games && Seated(sh.db.games[h], p) ensures h in todo {
        assert h in [g] + todo;
      }
    }
  }

  lemma ReloadSkips(sh: Shared, t: Tid, g: GameId, p: PlayerId, todo: seq<GameId>, mark: int)
    requires InOk(sh, t, g, ExpReload(p, todo, mark))
    requires match Get(sh.db.games, g) case Some(row) => !Seated(row, p) case None => true
    ensures InOk(sh, t, g, LeaveLock(ExpNext(p, todo, mark)))
  {
    hide InOk, RowOk, CopyOk, DetachOk, Covers, Seated;
    LocalOf(sh, t, g, ExpReload(p, todo, mark));
    Uncovered(sh, p, g, todo, mark);
    MayLeave(sh, t, g, ExpReload(p, todo, mark), ExpNext(p, todo, mark));
  }

  lemma ReloadCloses(sh: Shared, t: Tid, g: GameId, p: PlayerId, todo: seq<GameId>, mark: int, row: Game, seat: Seat)
    requires InOk(sh, t, g, ExpReload(p, todo, mark))
    requires Get(sh.db.games, g) == Some(row) && row.state.status != Status.Closed
    ensures InOk(sh, t, g, ExpSave(p, todo, mark, row.(state := After(row.state, Leave)), seat))
  {
    hide InOk, RowOk, DetachOk, Covers;
    LocalOf(sh, t, g, ExpReload(p, todo, mark));
    CalmKeeps(sh, sh, t, g, ExpReload(p, todo, mark),
        ExpSave(p, todo, mark, row.(state := After(row.state, Leave)), seat));
  }

  lemma AfterExpSave(sh: Shared, sh': Shared, t: Tid, g: GameId, i: InPc, p: PlayerId, todo: seq<GameId>, mark: int,
                     copy: Game, seat: Seat, commit: Commit)
    requires i == ExpSave(p, todo, mark, copy, seat) && InOk(sh, t, g, i)
    requires SaveDone(sh, sh', g, copy, commit) && sh'.seatings == sh.seatings
    ensures InOk(sh', t, g, ExpDetach(p, todo, mark, seat, copy, sh'.Version(g)))
  {
    hide InOk, StartOk, SeatCopied, Covers;
    LocalOf(sh, t, g, i);
    SavedCovers(sh, sh', g, p, todo, mark, copy, commit);
    SavedKeeps(sh, sh', t, g, i, ExpDetach(p, todo, mark, seat, copy, sh'.Version(g)), copy, commit);
  }

  /** The game just closed need not be covered any more. */
  lemma SavedCovers(sh: Shared, sh': Shared, g: GameId, p: PlayerId, todo: seq<GameId>, mark: int, copy: Game,
                    commit: Commit)
    requires SaveDone(sh, sh', g, copy, commit) && sh'.seatings == sh.seatings
    requires Covers(sh, p, [g] + todo, mark) && copy.state.status == Status.Closed
    ensures Covers(sh', p, todo, mark)
  {
    forall h | sh.Seatings(p) == mark && h in sh'.db.games && Seated(sh'.db.games[h], p) ensures h in todo {
      assert h in sh.db.games && h != g && Seated(sh.db.games[h], p);
      assert h in [g] + todo;
    }
  }

  lemma AfterExpDetach(sh: Shared, sh': Shared, t: Tid, g: GameId, p: PlayerId, todo: seq<GameId>, mark: int,
      seat: Seat,
                       row: Game, v: nat)
    requires InOk(sh, t, g, ExpDetach(p, todo, mark, seat, row, v))
    requires sh' == sh.(reg := sh'.reg) && sh'.reg.Attached(g) <= sh.reg.Attached(g)
    ensures InOk(sh', t, g, CloseView(PlayerExpired, seat, row, v, ExpNext(p, todo, mark)))
  {
    hide InOk, StartOk, CopyOk, Live, Covers;
    LocalOf(sh, t, g, ExpDetach(p, todo, mark, seat, row, v));
    CoversSame(sh, sh', p, todo, mark);
    CalmKeeps(sh, sh', t, g, ExpDetach(p, todo, mark, seat, row, v),
        CloseView(PlayerExpired, seat, row, v, ExpNext(p, todo, mark)));
  }

  lemma AfterGameLoad(sh: Shared, t: Tid, g: GameId, cutoff: Time)
    requires InOk(sh, t, g, GameLoad(cutoff))
    ensures InOk(sh, t, g, GameDetach)
  {
    hide InOk, CopyOk, Live, DetachOk, Covers;
    LocalOf(sh, t, g, GameLoad(cutoff));
    CalmKeeps(sh, sh, t, g, GameLoad(cutoff), GameDetach);
  }

  /** Once nobody is attached, the sweeper closes the connections and deletes the game. */
  lemma EmptyGame(sh: Shared, g: GameId, todo: seq<ConnId>)
    requires sh.reg.Attached(g) == {} && forall d :: d in todo ==> d in sh.chan
    ensures InOk(sh, Sweeper, g, GameClose(todo)) && InOk(sh, Sweeper, g, GameDelete)
    ensures InOk(sh, Sweeper, g, LeaveLock(Idle))
  {
    hide InOk, StartOk, CopyOk, Live;
    EmptyKeeps(sh, Sweeper, g, GameClose(todo));
    EmptyKeeps(sh, Sweeper, g, GameDelete);
    EmptyKeeps(sh, Sweeper, g, LeaveLock(Idle));
  }

  // ----- Sending -----

  lemma FollowingOk(sh: Shared, t: Tid, g: GameId, k: Then)
    requires ThenOk(sh, t, g, k)
    ensures Local(sh, t, g, Following(k))
  {
    hide StartOk, CopyOk;
  }

  /** The end of a loop: whoever is to be told nothing by what follows has been told. */
  lemma AfterSends(sh: Shared, t: Tid, g: GameId, todo: seq<ConnId>, msgs: seq<Msg>, seats: map<ConnId, Seat>,
                   next: nat, k: Then)
    requires InOk(sh, t, g, Sends(todo, msgs, seats, next, k)) && todo == []
    ensures InOk(sh, t, g, Following(k))
  {
    hide InOk, StartOk, CopyOk, MsgsOk, ThenOk, Live, OutOk;
    LocalOf(sh, t, g, Sends(todo, msgs, seats, next, k));
    FollowingOk(sh, t, g, k);
    CalmKeeps(sh, sh, t, g, Sends(todo, msgs, seats, next, k), Following(k));
  }

  /** Whoever is told nothing by the rest of the loop has been told. */
  lemma SendTold(sh: Shared, t: Tid, g: GameId, i: InPc, todo: seq<ConnId>, msgs: seq<Msg>, seats: map<ConnId, Seat>,
                 next: nat, k: Then, sv: Serving)
    requires i == Sends(todo, msgs, seats, next, k) && ToldOk(sh, t, g, i) && MsgsOk(sh, t, g, todo, msgs)
    requires todo != [] && next < |msgs|
    ensures var to := SendNext(sh, todo, msgs, seats, next, k, sv); ToldOk(to.sh, t, g, to.pc)
  {
    var to := SendNext(sh, todo, msgs, seats, next, k, sv);
    if g !in sh.stale {
      var m := Rendered(msgs[next], seats, todo[0]);
      RenderedSame(msgs[next], seats, todo[0]);
      forall d | d in to.sh.reg.Attached(g) && !Untold(t, to.pc, d) ensures Informed(to.sh, g, d) {
        if Untold(t, i, d) {
          assert d == todo[0] && next == |msgs| - 1;
          SentInforms(sh, d, m, g);
        } else {
          SentKeepsInformed(sh, todo[0], m, g, d);
        }
      }
    }
  }

  lemma SendLocal(sh: Shared, t: Tid, g: GameId, todo: seq<ConnId>, msgs: seq<Msg>, seats: map<ConnId, Seat>,
                  next: nat, k: Then, sv: Serving)
    requires Local(sh, t, g, Sends(todo, msgs, seats, next, k)) && todo != []
    ensures
      var to := SendNext(sh, todo, msgs, seats, next, k, sv);
      && Local(to.sh, t, g, to.pc) && Onward(to.pc) == Onward(Sends(todo, msgs, seats, next, k))
      && (AttachedOk(sh, g, Sends(todo, msgs, seats, next, k)) ==> AttachedOk(to.sh, g, to.pc))
  {
    hide StartOk, CopyOk, MsgsOk, ThenOk, Rendered;
    var to := SendNext(sh, todo, msgs, seats, next, k, sv);
    SentMsgs(sh, todo[0], Rendered(msgs[next], seats, todo[0]), t, g, todo, msgs, k);
    FollowingOk(to.sh, t, g, k);
    FewerReceivers(to.sh, t, g, todo, msgs);
  }

  /** A send leaves what is to be sent as justified as it was. */
  lemma SentMsgs(sh: Shared, d: ConnId, m: Msg, t: Tid, g: GameId, todo: seq<ConnId>, msgs: seq<Msg>, k: Then)
    ensures MsgsOk(sh.Sent(d, m), t, g, todo, msgs) == MsgsOk(sh, t, g, todo, msgs)
    ensures ThenOk(sh.Sent(d, m), t, g, k) == ThenOk(sh, t, g, k)
  {
  }

  lemma FewerReceivers(sh: Shared, t: Tid, g: GameId, todo: seq<ConnId>, msgs: seq<Msg>)
    requires MsgsOk(sh, t, g, todo, msgs) && todo != []
    ensures |todo| > 1 ==> MsgsOk(sh, t, g, todo[1..], msgs)
  {
  }

  lemma AfterSend(sh: Shared, t: Tid, g: GameId, todo: seq<ConnId>, msgs: seq<Msg>, seats: map<ConnId, Seat>,
                  next: nat, k: Then, sv: Serving)
    requires InOk(sh, t, g, Sends(todo, msgs, seats, next, k)) && Global(sh)
    requires t.Reader? ==> t.Mine() in sh.reg.link
    ensures var to := SendNext(sh, todo, msgs, seats, next, k, sv); InOk(to.sh, t, g, to.pc)
  {
    hide SendNext, AttachedOk, ToldOk, Local, MsgsOk, OutOk, Global, Rely, Sendable, Rendered;
    var i, to := Sends(todo, msgs, seats, next, k), SendNext(sh, todo, msgs, seats, next, k, sv);
    SendsOf(sh, t, g, todo, msgs, seats, next, k);
    if todo == [] {
      AfterSends(sh, t, g, todo, msgs, seats, next, k);
      SendsEnd(sh, todo, msgs, seats, next, k, sv);
    } else {
      SendTold(sh, t, g, i, todo, msgs, seats, next, k, sv);
      SendLocal(sh, t, g, todo, msgs, seats, next, k, sv);
      NextSendable(sh, t, g, todo, msgs, seats, next);
      SentKeeps(sh, todo[0], Rendered(msgs[next], seats, todo[0]), None, Some(g));
      assert to.sh == sh.Sent(todo[0], Rendered(msgs[next], seats, todo[0])) by {
        SendsOn(sh, todo, msgs, seats, next, k, sv);
      }
      match Onward(i) {
        case Some(o) => OutAfterRely(sh, to.sh, t, g, o);
        case None =>
      }
    }
  }

  lemma SendsOf(sh: Shared, t: Tid, g: GameId, todo: seq<ConnId>, msgs: seq<Msg>, seats: map<ConnId, Seat>, next: nat,
                k: Then)
    requires Local(sh, t, g, Sends(todo, msgs, seats, next, k))
    ensures MsgsOk(sh, t, g, todo, msgs) && next < |msgs|
  {
    hide StartOk, CopyOk, MsgsOk, ThenOk;
  }

  lemma SendsEnd(sh: Shared, todo: seq<ConnId>, msgs: seq<Msg>, seats: map<ConnId, Seat>, next: nat, k: Then,
      sv: Serving)
    requires todo == []
    ensures SendNext(sh, todo, msgs, seats, next, k, sv) == To(sh, Following(k), sv)
  {
  }

  lemma SendsOn(sh: Shared, todo: seq<ConnId>, msgs: seq<Msg>, seats: map<ConnId, Seat>, next: nat, k: Then,
      sv: Serving)
    requires todo != [] && next < |msgs|
    ensures SendNext(sh, todo, msgs, seats, next, k, sv).sh == sh.Sent(todo[0], Rendered(msgs[next], seats, todo[0]))
  {
    hide Rendered, Following;
  }

  // ----- Every step -----

  ghost predicate AttachedIn(sh: Shared, g: GameId) {
    && sh.reg.Attached(g) <= sh.chan.Keys && sh.chan.Keys == sh.reg.link.Keys
    && (forall c :: c in sh.chan ==> (sh.Place(c).In(g) <==> c in sh.reg.Attached(g)))
    && SeatsHeld(sh)
  }

  lemma AttachedKnown(sh: Shared, g: GameId)
    requires Global(sh)
    ensures AttachedIn(sh, g)
  {
    hide DbOk, SeatsHeld, LogsOk, HistoriesOk;
    assert g in sh.reg.games ==> sh.reg.games[g] <= sh.reg.link.Keys;
  }

  lemma ReaderOnly(sh: Shared, t: Tid, g: GameId, i: InPc)
    requires Local(sh, t, g, i)
    ensures i.ConnReload? || i.ConnSave? || i.ConnAttach? || i.ConnView? || i.ConnList? ==> t.Reader?
    ensures i.ActCheck? || i.ActLoad? || i.ActSave? || i.ActDetach? || i.Tell? || i.CastView? || i.CastList?
        ==> t.Reader?
    ensures i.GameLoad? || i.GameDetach? || i.GameClose? || i.GameDelete? ==> t == Sweeper
  {
    hide DetachOk, Covers, SeatCopied, Live, RowIs, Apply, AttemptOf, JoinGame, CloseGame, MsgsOk, ThenOk;
  }

  /** A save that succeeds is done. */
  lemma SavedDone(sh: Shared, g: GameId, row: Game, actor: Option<PlayerId>, commit: Commit, ch: Choice, saved: Shared)
    requires Global(sh) && Live(sh, g) && Saved(sh, g, row, actor, commit, ch) == Some(saved)
    ensures SaveDone(sh, saved, g, row, commit) && saved.seatings == sh.seatings
    ensures forall p :: SaveDone(sh, saved.SeatTaken(p), g, row, commit)
  {
    assert g in sh.saves by {
      StoredSaved(sh, g);
    }
    hide Global;
  }

  lemma CopyLive(sh: Shared, t: Tid, g: GameId, i: InPc)
    requires Local(sh, t, g, i) && Saving(i)
    ensures Live(sh, g)
  {
    hide Live, SeatCopied, Covers, Apply, AttemptOf, JoinGame, CloseGame, StartOk, RowOk;
  }

  /** Every step of connecting under the lock. */
  lemma ConnectingNext(sh: Shared, t: Tid, g: GameId, sv: Serving, i: InPc, ch: Choice)
    requires Global(sh) && InOk(sh, t, g, i) && AttachedIn(sh, g) && t.Reader? && t.Mine() in sh.chan
    requires ListsConns(sh, t, g, i, ch)
    requires i.ConnReload? || i.ConnSave? || i.ConnAttach? || i.ConnView? || i.ConnList?
    ensures var to := Body(sh, t, g, sv, i, ch); InOk(to.sh, t, g, to.pc)
  {
    hide Saved, Load, Seating, Apply, After, Attach, Detach, DetachSet, DeleteGame, Before, AfterOk, Resumed, AttemptOf,
        Following, Final, SendNext, Shared.View, Shared.SeatsIn, Shared.Closed, Lists, Global, InOk, SeatsHeld, Seated,
        Live, StartOk;
    match i
    case ConnReload(p, digest) =>
      match Load(sh, g, digest, ch.fail) {
        case Failure(e) => ReloadRefuses(sh, t, g, p, digest, ch.fail, e);
        case Success(row) =>
          match Seating(row, p) {
            case Failure(e) => ReloadRefuses(sh, t, g, p, digest, ch.fail, e);
            case Success(next) => ReloadSeats(sh, t, g, p, digest, ch.fail, row, next);
          }
      }
    case ConnSave(p, copy, seat, joined) =>
      var row, commit := copy.(lastActive := ch.now), if joined then Changed(Join) else Reconnected;
      LocalOf(sh, t, g, i);
      CopyLive(sh, t, g, i);
      match Saved(sh, g, row, Some(p), commit, ch) {
        case None => MayRefuse(sh, t, g, i, Internal);
        case Some(saved) =>
          SavedDone(sh, g, row, Some(p), commit, ch, saved);
          AfterConnSave(sh, if joined then saved.SeatTaken(p) else saved, t, g, i, p, copy, row, seat, joined, commit);
      }
    case ConnAttach(seat, row, v, joined) =>
      AttachedToo(sh.reg, t.Mine(), g, seat);
      AfterAttach(sh, sh.(reg := Attach(sh.reg, t.Mine(), g, seat)), t, g, seat, row, v, joined,
          sh.Place(t.Mine()).In(g));
    case ConnView(seat, row, v, joined, was) =>
      ViewFails(sh, t, g, i, SendErr(Internal));
      AfterView(sh, t, g, seat, row, v, joined, was, sh.View(g, row), sv.rid);
    case ConnList(seat, view, v) => AfterConnList(sh, t, g, seat, view, v, ch.conns);
  }

  lemma AttachedToo(reg: Reg<ConnId>, c: ConnId, g: GameId, seat: Seat)
    ensures Attach(reg, c, g, seat).Attached(g) == reg.Attached(g) + {c}
  {
  }

  /** Every step of a game action under the lock. */
  lemma ActingNext(sh: Shared, t: Tid, g: GameId, sv: Serving, i: InPc, ch: Choice)
    requires Global(sh) && InOk(sh, t, g, i) && AttachedIn(sh, g) && t.Reader? && t.Mine() in sh.chan
    requires ListsConns(sh, t, g, i, ch)
    requires i.ActCheck? || i.ActLoad? || i.ActSave? || i.ActDetach? || i.Tell?
    ensures var to := Body(sh, t, g, sv, i, ch); InOk(to.sh, t, g, to.pc)
  {
    hide Saved, Load, Seating, Apply, After, Attach, Detach, DetachSet, DeleteGame, Before, AfterOk, Resumed, AttemptOf,
        Following, Final, SendNext, Shared.View, Shared.SeatsIn, Shared.Closed, Lists, Global, InOk, SeatsHeld, Seated,
        Live, StartOk;
    match i
    case ActCheck(a) => AfterActCheck(sh, t, g, a);
    case ActLoad(a, seat, p) =>
      MayRefuse(sh, t, g, i, Internal);
      ActLoadAttached(sh, t, g, i);
      LoadedOpen(sh, t, g, i);
      match Get(sh.db.games, g) {
        case None => StoredLive(sh, g);
        case Some(row) => AfterActLoad(sh, t, g, a, seat, p, row);
      }
    case ActSave(a, seat, p, copy) =>
      var row, commit := copy.(lastActive := ch.now), Changed(AttemptOf(a, seat));
      LocalOf(sh, t, g, i);
      CopyLive(sh, t, g, i);
      match Saved(sh, g, row, Some(p), commit, ch) {
        case None => MayRefuse(sh, t, g, i, Internal);
        case Some(saved) =>
          SavedDone(sh, g, row, Some(p), commit, ch, saved);
          AfterActSave(sh, saved, t, g, i, a, seat, p, copy, row, commit, sv.rid);
      }
    case ActDetach(seat, row, v) => AfterActDetach(sh, t, g, seat, row, v, sv.rid);
    case Tell(e, row, v) => AfterTell(sh, t, g, e, row, v, ch.conns);
  }

  lemma ActLoadAttached(sh: Shared, t: Tid, g: GameId, i: InPc)
    requires InOk(sh, t, g, i) && i.ActLoad? && AttachedIn(sh, g) && t.Mine() in sh.chan
    ensures t.Reader? && t.Mine() in sh.reg.Attached(g)
  {
    hide AttachedOk, ToldOk, OnwardOk, StartOk, RowOk, SeatsHeld;
  }

  lemma StoredLive(sh: Shared, g: GameId)
    requires Live(sh, g)
    ensures g in sh.db.games
  {
  }

  /** Every step of telling connections about the game. */
  lemma TellingNext(sh: Shared, t: Tid, g: GameId, sv: Serving, i: InPc, ch: Choice)
    requires Global(sh) && InOk(sh, t, g, i) && AttachedIn(sh, g) && (t.Reader? ==> t.Mine() in sh.chan)
    requires ListsConns(sh, t, g, i, ch)
    requires i.CastView? || i.CastList? || i.CloseView? || i.CloseList? || i.Sends? || i.DetachCheck?
    ensures var to := Body(sh, t, g, sv, i, ch); InOk(to.sh, t, g, to.pc)
  {
    hide Saved, Load, Seating, Apply, After, Attach, Detach, DetachSet, DeleteGame, Before, AfterOk, Resumed, AttemptOf,
        Following, Final, SendNext, Shared.View, Shared.SeatsIn, Shared.Closed, Global, InOk, SeatsHeld, Seated,
        Live, StartOk;
    match i
    case CastView(row, v) =>
      ViewFails(sh, t, g, i, Idle);
      AfterCastView(sh, t, g, row, v, sh.View(g, row));
    case CastList(view, v) => AfterCastList(sh, t, g, view, v, ch.conns, sh.SeatsIn(g));
    case CloseView(reason, side, row, v, o) =>
      AfterCloseView(sh, t, g, reason, side, row, v, o, if ch.fail then None else Some(sh.View(g, row)));
    case CloseList(reason, side, row, v, viewed, o) =>
      AfterCloseList(sh, t, g, i, reason, side, row, v, viewed, o, ch.conns, sh.SeatsIn(g));
    case Sends(todo, msgs, seats, next, k) => AfterSend(sh, t, g, todo, msgs, seats, next, k, sv);
    case DetachCheck(d, tries, k) =>
      RetryDetach(sh, t, g, d, tries, k);
      match sh.Place(d) {
        case At(h, seat) =>
          if h == g {
            AfterDetach(sh, t, g, d, tries, k, seat, ch.conns);
          }
        case Nowhere =>
      }
  }

  /** Every step of an expiry under the lock. */
  lemma ExpiringNext(sh: Shared, t: Tid, g: GameId, sv: Serving, i: InPc, ch: Choice)
    requires Global(sh) && InOk(sh, t, g, i) && AttachedIn(sh, g)
    requires i.ExpReload? || i.ExpSave? || i.ExpDetach?
    ensures var to := Body(sh, t, g, sv, i, ch); InOk(to.sh, t, g, to.pc)
  {
    hide Saved, Load, Seating, Apply, After, Attach, Detach, DetachSet, DeleteGame, Before, AfterOk, Resumed, AttemptOf,
        Following, Final, SendNext, Shared.View, Shared.SeatsIn, Shared.Closed, Lists, Global, InOk, SeatsHeld, Live,
        StartOk;
    match i
    case ExpReload(p, todo, mark) =>
      MayLeave(sh, t, g, i, Idle);
      match Get(sh.db.games, g) {
        case None => ReloadSkips(sh, t, g, p, todo, mark);
        case Some(row) =>
          if Seated(row, p) {
            ReloadCloses(sh, t, g, p, todo, mark, row, if row.SeatOf(p).Some? then row.SeatOf(p).value else Host);
          } else {
            ReloadSkips(sh, t, g, p, todo, mark);
          }
      }
    case ExpSave(p, todo, mark, copy, seat) =>
      LocalOf(sh, t, g, i);
      CopyLive(sh, t, g, i);
      match Saved(sh, g, copy, None, Changed(Leave), ch) {
        case None => MayLeave(sh, t, g, i, Idle);
        case Some(saved) =>
          SavedDone(sh, g, copy, None, Changed(Leave), ch, saved);
          AfterExpSave(sh, saved, t, g, i, p, todo, mark, copy, seat, Changed(Leave));
      }
    case ExpDetach(p, todo, mark, seat, row, v) =>
      var cs := set d | d in sh.reg.Attached(g) && sh.PlayerOn(d) == Some(p);
      FewerLeft(sh.reg, g, cs);
      AfterExpDetach(sh, sh.(reg := DetachSet(sh.reg, g, cs)), t, g, p, todo, mark, seat, row, v);
  }

  lemma FewerLeft(reg: Reg<ConnId>, g: GameId, cs: set<ConnId>)
    ensures DetachSet(reg, g, cs).Attached(g) <= reg.Attached(g)
  {
  }

  /** Every step of deleting the game. */
  lemma DeletingNext(sh: Shared, t: Tid, g: GameId, sv: Serving, i: InPc, ch: Choice)
    requires Global(sh) && InOk(sh, t, g, i) && AttachedIn(sh, g) && ListsConns(sh, t, g, i, ch) && t == Sweeper
    requires i.GameLoad? || i.GameDetach? || i.GameClose? || i.GameDelete?
    ensures var to := Body(sh, t, g, sv, i, ch); InOk(to.sh, t, g, to.pc)
  {
    hide Saved, Load, Seating, Apply, After, Attach, Detach, DetachSet, DeleteGame, Before, AfterOk, Resumed, AttemptOf,
        Following, Final, SendNext, Shared.View, Shared.SeatsIn, Shared.Closed, Global, InOk, SeatsHeld, Seated,
        Live, StartOk, Local;
    match i
    case GameLoad(cutoff) =>
      MayLeave(sh, t, g, i, Idle);
      AfterGameLoad(sh, t, g, cutoff);
    case GameDetach =>
      NoneAttached(sh, g);
      EmptyGame(sh.(reg := DetachSet(sh.reg, g, sh.reg.Attached(g))), g, ch.conns);
    case GameClose(todo) =>
      DeletingEmpty(sh, g, i, todo);
      EmptyGame(sh, g, []);
      if todo != [] {
        ClosedSame(sh, todo[0], CLOSE_GAME_EXPIRED);
        EmptyGame(sh.Closed(todo[0], CLOSE_GAME_EXPIRED), g, todo[1..]);
      }
    case GameDelete =>
      DeletingEmpty(sh, g, i, []);
      EmptyGame(sh, g, []);
      EmptyGame(sh.(db := DeleteGame(sh.db, g)), g, []);
  }

  lemma DeletingEmpty(sh: Shared, g: GameId, i: InPc, todo: seq<ConnId>)
    requires InOk(sh, Sweeper, g, i) && (i == GameClose(todo) || (i.GameDelete? && todo == []))
    ensures sh.reg.Attached(g) == {} && forall d :: d in todo ==> d in sh.chan
  {
    hide AttachedOk, ToldOk, OnwardOk, StartOk, CopyOk;
  }

  lemma ClosedSame(sh: Shared, c: ConnId, code: int)
    ensures sh.Closed(c, code).reg == sh.reg && sh.Closed(c, code).chan.Keys == sh.chan.Keys
  {
    hide Close;
  }

  /** Whatever a goroutine does under a game lock, its next control state is justified. */
  lemma BodyNext(sh: Shared, t: Tid, g: GameId, sv: Serving, i: InPc, ch: Choice)
    requires Global(sh) && InOk(sh, t, g, i) && !i.LeaveLock? && (t.Reader? ==> t.Mine() in sh.chan)
    requires ListsConns(sh, t, g, i, ch)
    ensures var to := Body(sh, t, g, sv, i, ch); InOk(to.sh, t, g, to.pc)
  {
    hide *;
    AttachedKnown(sh, g);
    LocalOf(sh, t, g, i);
    ReaderOnly(sh, t, g, i);
    if i.ConnReload? || i.ConnSave? || i.ConnAttach? || i.ConnView? || i.ConnList? {
      ConnectingNext(sh, t, g, sv, i, ch);
    } else if i.ActCheck? || i.ActLoad? || i.ActSave? || i.ActDetach? || i.Tell? {
      ActingNext(sh, t, g, sv, i, ch);
    } else if i.CastView? || i.CastList? || i.CloseView? || i.CloseList? || i.Sends? || i.DetachCheck? {
      TellingNext(sh, t, g, sv, i, ch);
    } else if i.ExpReload? || i.ExpSave? || i.ExpDetach? {
      ExpiringNext(sh, t, g, sv, i, ch);
    } else {
      DeletingNext(sh, t, g, sv, i, ch);
    }
  }

  // ----- Whom a step leaves untold -----

  /** Whoever is attached and not to be told any more after a step was so before it. */
  ghost predicate StaysUntold(sh: Shared, sh': Shared, t: Tid, g: GameId, i: InPc, i': InPc, d: ConnId) {
    d in sh'.reg.Attached(g) && g !in sh'.stale && !Untold(t, i', d) ==>
      d in sh.reg.Attached(g) && g !in sh.stale && !Untold(t, i, d)
  }

  lemma ListingUntold(sh: Shared, t: Tid, g: GameId, sv: Serving, i: InPc, ch: Choice, d: ConnId)
    requires Local(sh, t, g, i) && ListsConns(sh, t, g, i, ch) && (i.ConnView? || i.ConnList? || i.CastList?)
    ensures var to := Body(sh, t, g, sv, i, ch); StaysUntold(sh, to.sh, t, g, i, to.pc, d)
  {
    hide Shared.View, Shared.SeatsIn, RowIs, StartOk, CopyOk;
    var pc := Body(sh, t, g, sv, i, ch).pc;
    match pc
    case Sends(_, msgs, _, _, _) => assert SnapOf(msgs[|msgs| - 1]).Some?;
    case _ =>
  }

  /** Control states in which connections are attached or detached. */
  predicate Moving(i: InPc) {
    i.ConnAttach? || i.ActDetach? || i.DetachCheck? || i.ExpDetach? || i.CloseList? || i.GameDetach?
  }

  lemma MovingUntold(sh: Shared, t: Tid, g: GameId, sv: Serving, i: InPc, ch: Choice, d: ConnId)
    requires Moving(i) && (i.ConnAttach? ==> t.Reader?)
    ensures var to := Body(sh, t, g, sv, i, ch); StaysUntold(sh, to.sh, t, g, i, to.pc, d)
  {
    hide Resumed, Shared.SeatsIn, Attach, Detach, DetachSet, CarriesSnap;
    match i
    case ConnAttach(seat, _, _, _) => AttachedToo(sh.reg, t.Mine(), g, seat);
    case ActDetach(_, _, _) => FewerWithout(sh.reg, t.Mine(), g);
    case DetachCheck(c, _, _) => FewerWithout(sh.reg, c, g);
    case ExpDetach(p, _, _, _, _, _) => FewerLeft(sh.reg, g, set c | c in sh.reg.Attached(g)
        && sh.PlayerOn(c) == Some(p));
    case CloseList(_, _, _, _, _, _) => NoneAttached(sh, g);
    case GameDetach => NoneAttached(sh, g);
  }

  lemma OtherUntold(sh: Shared, t: Tid, g: GameId, sv: Serving, i: InPc, ch: Choice, d: ConnId)
    requires !i.Sends? && !i.LeaveLock? && !i.ConnView? && !i.ConnList? && !i.CastList? && !Moving(i)
    ensures var to := Body(sh, t, g, sv, i, ch); StaysUntold(sh, to.sh, t, g, i, to.pc, d)
  {
    hide SaveGame, Load, JoinGame, Apply, After, Before, AttemptOf, Shared.View, DeleteGame, CarriesSnap;
  }

  lemma FewerWithout(reg: Reg<ConnId>, c: ConnId, g: GameId)
    ensures Detach(reg, c).Attached(g) <= reg.Attached(g)
  {
  }

  lemma BodyUntold(sh: Shared, t: Tid, g: GameId, sv: Serving, i: InPc, ch: Choice, d: ConnId)
    requires Local(sh, t, g, i) && ListsConns(sh, t, g, i, ch) && !i.Sends? && !i.LeaveLock?
    ensures var to := Body(sh, t, g, sv, i, ch); StaysUntold(sh, to.sh, t, g, i, to.pc, d)
  {
    hide Local, ListsConns, Body, StaysUntold;
    if i.ConnView? || i.ConnList? || i.CastList? {
      ListingUntold(sh, t, g, sv, i, ch, d);
    } else if Moving(i) {
      ReaderOnly(sh, t, g, i);
      MovingUntold(sh, t, g, sv, i, ch, d);
    } else {
      OtherUntold(sh, t, g, sv, i, ch, d);
    }
  }
}
