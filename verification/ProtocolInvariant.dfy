/**
 * What holds in every reachable world. The lock of a game protects its row, its attachments and the snapshots
 * sent about it: while nobody is inside, the game is settled; a goroutine inside may unsettle it, and what its
 * control state asserts says how.
 */
module ProtocolInvariant {
  import opened Wrappers
  import opened Rules
  import opened Store
  import opened Registry
  import opened Protocol
  import opened ProtocolLocks

  // ----- Saves and snapshots -----

  function AfterCommit(s: State, commit: Commit): State {
    match commit
    case Reconnected => s
    case Changed(a) => After(s, a)
  }

  /** Each save made the next state from the one before. */
  ghost predicate Faithful(h: History) {
    && |h.states| == |h.commits| + 1
    && forall n :: 0 <= n < |h.commits| ==> h.states[n + 1] == AfterCommit(h.states[n], h.commits[n])
  }

  /** The latest snapshot of game g in a log of messages. */
  function LastAbout(log: seq<Msg>, g: GameId): Option<Snap> {
    if log == [] then None
    else
      var snap := SnapOf(log[|log| - 1]);
      if snap.Some? && snap.value.game == g then snap else LastAbout(log[..|log| - 1], g)
  }

  /** A snapshot shows the game as it was after some of its saves. */
  ghost predicate Genuine(sh: Shared, snap: Snap) {
    && snap.game in sh.saves
    && snap.version < |sh.saves[snap.game].states|
    && snap.Shows() == sh.saves[snap.game].states[snap.version]
  }

  /** Snapshots of one game appear in a log in the order of the saves they show. */
  ghost predicate InCommitOrder(log: seq<Msg>) {
    forall i, j | 0 <= i < j < |log| && SnapOf(log[i]).Some? && SnapOf(log[j]).Some? ::
      SnapOf(log[i]).value.game == SnapOf(log[j]).value.game ==>
        SnapOf(log[i]).value.version <= SnapOf(log[j]).value.version
  }

  // ----- The shared state at every step -----

  /** A seated connection of a stored player holds that player's seat. */
  ghost predicate SeatsHeld(sh: Shared) {
    forall c :: c in sh.reg.link && sh.Place(c).At? ==>
      && sh.PlayerOn(c).Some? && sh.Place(c).game in sh.saves
      && (sh.Place(c).game in sh.db.games && sh.PlayerOn(c).value in sh.db.players ==>
            sh.db.games[sh.Place(c).game].PlayerOf(sh.Place(c).seat) == sh.PlayerOn(c))
  }

  /** A bounded queue behind a log of genuine snapshots, in order. */
  ghost predicate ChanOk(sh: Shared, ch: Chan) {
    && ch.taken <= |ch.log| <= ch.taken + SEND_BUFFER
    && InCommitOrder(ch.log)
    && (forall i :: 0 <= i < |ch.log| && SnapOf(ch.log[i]).Some? ==> Genuine(sh, SnapOf(ch.log[i]).value))
  }

  ghost predicate LogsOk(sh: Shared) {
    forall c :: c in sh.chan ==> ChanOk(sh, sh.chan[c])
  }

  /** The indexes agree, and connections are bound to players that are or were stored. */
  ghost predicate RegOk(sh: Shared) {
    && sh.chan.Keys == sh.reg.link.Keys
    && sh.reg.Agrees()
    && (forall c :: c in sh.reg.link && sh.PlayerOn(c).Some? ==> sh.PlayerOn(c).value in sh.used)
  }

  /** Stored games refer to stored players, and each is what its saves made of it. */
  ghost predicate DbOk(sh: Shared) {
    && sh.db.ForeignKeys()
    && sh.db.players.Keys <= sh.used
    && (forall g :: g in sh.saves ==> |sh.saves[g].states| == |sh.saves[g].commits| + 1)
    && (forall g :: g in sh.db.games ==>
          g in sh.saves && sh.db.games[g].state == sh.saves[g].states[|sh.saves[g].commits|])
  }

  ghost predicate HistoriesOk(sh: Shared) {
    forall g :: g in sh.saves ==> Faithful(sh.saves[g])
  }

  ghost predicate Global(sh: Shared) {
    RegOk(sh) && DbOk(sh) && SeatsHeld(sh) && LogsOk(sh) && HistoriesOk(sh)
  }

  // ----- A game while its lock is free -----

  ghost predicate Live(sh: Shared, g: GameId) {
    g in sh.db.games && sh.db.games[g].state.status != Status.Closed
  }

  /** Connection c has been told the current state of game g, or will not be told anything any more. */
  ghost predicate Informed(sh: Shared, g: GameId, c: ConnId) {
    || sh.Closing(c)
    || (&& c in sh.chan && g in sh.db.games
        && LastAbout(sh.chan[c].log, g).Some?
        && LastAbout(sh.chan[c].log, g).value.Shows() == sh.db.games[g].state)
  }

  /** Only open games have connections, and all of these know its state. */
  ghost predicate Settled(sh: Shared, g: GameId) {
    && (sh.reg.Attached(g) == {} || Live(sh, g))
    && (g !in sh.stale ==> forall c :: c in sh.reg.Attached(g) ==> Informed(sh, g, c))
  }

  // ----- Assertions of control states -----

  /** The games of an expiring player that are still open are among those to do, unless it was seated since. */
  ghost predicate Covers(sh: Shared, p: PlayerId, todo: seq<GameId>, mark: int) {
    && mark <= sh.Seatings(p)
    && (sh.Seatings(p) == mark ==> forall g :: g in sh.db.games && Seated(sh.db.games[g], p) ==> g in todo)
  }

  ghost predicate DetachOk(sh: Shared, t: Tid, d: ConnId, k: Resume) {
    && d in sh.chan
    && (t == Reader(d) || sh.Closing(d))
    && match k
       case Rest => t.Reader?
       case GoConnect(g, p, _) => t == Reader(d) && sh.PlayerOn(d) == Some(p) && !sh.Place(d).In(g)
       case GoForget => t == Reader(d) && sh.Closing(d)
       case GoDelete(p, mark) => t == Sweeper && Covers(sh, p, [], mark)
  }

  /** What a connection's own fields say when it is refused because of them. */
  predicate Justifies(sh: Shared, c: ConnId, code: Code) {
    match code
    case NotAuthenticated => sh.PlayerOn(c).None?
    case AlreadyAuthenticated => sh.PlayerOn(c).Some?
    case NotInGame => sh.PlayerOn(c).Some? && sh.Place(c) == Nowhere
    case _ => true
  }

  ghost predicate StartOk(sh: Shared, t: Tid, g: GameId, i: InPc) {
    || (i.ConnReload? && t.Reader? && sh.PlayerOn(t.Mine()) == Some(i.player) && Here(sh, g, t.Mine()))
    || (i.ActCheck? && t.Reader? && i.action.NeedsGame() && sh.PlayerOn(t.Mine()).Some? && Here(sh, g, t.Mine()))
    || (i.DetachCheck? && DetachOk(sh, t, i.conn, i.resume))
    || (i.ExpReload? && t == Sweeper && Covers(sh, i.player, [g] + i.todo, i.mark))
    || (i.GameLoad? && t == Sweeper)
  }

  /** Connection c is in game g or nowhere. */
  predicate Here(sh: Shared, g: GameId, c: ConnId) {
    sh.Place(c) == Nowhere || sh.Place(c).In(g)
  }

  ghost predicate OutOk(sh: Shared, t: Tid, o: OutPc) {
    o.Idle? || BusyOk(sh, t, o)
  }

  ghost predicate BusyOk(sh: Shared, t: Tid, o: OutPc) {
    match o
    case Idle => false
    case Done =>
      && t.Reader? && sh.Place(t.Mine()) == Nowhere && t.Mine() !in sh.reg.conns
      && (forall p :: p in sh.reg.players ==> sh.reg.players[p] != t.Mine())
    case Dispatch(_) => t.Reader?
    case Gate(a) => t.Reader? && !a.Unknown?
    case AuthCheck(_, _) => t.Reader?
    case AuthLoad(_, _) => t.Reader? && sh.PlayerOn(t.Mine()).None?
    case AuthTouch(p) => t.Reader? && sh.PlayerOn(t.Mine()).None? && p in sh.used
    case AuthRegister(p) => t.Reader? && sh.PlayerOn(t.Mine()).None? && p in sh.used
    case AuthReply(r) => t.Reader? && (r.Some? ==> r.value in sh.chan && r.value != t.Mine())
    case AuthNotify(d) => t.Reader? && d in sh.chan && d != t.Mine()
    case AuthClose(d) => t.Reader? && d in sh.chan && d != t.Mine()
    case ConnLoad(_, _) => t.Reader? && sh.PlayerOn(t.Mine()).Some?
    case ConnPlayer(_, _) => t.Reader? && sh.PlayerOn(t.Mine()).Some?
    case ConnCurrent(_, p, _) => t.Reader? && sh.PlayerOn(t.Mine()) == Some(p)
    case WithGame(a) => t.Reader? && a.NeedsGame() && sh.PlayerOn(t.Mine()).Some?
    case SendErr(code) => t.Reader? && Justifies(sh, t.Mine(), code)
    case Lock(g, i) => StartOk(sh, t, g, i)
    case DetachRead(d, _, k) => DetachOk(sh, t, d, k)
    case DiscClose => t.Reader?
    case DiscForget => t.Reader? && sh.Place(t.Mine()) == Nowhere && sh.Closing(t.Mine())
    case ExpLoad(_, _) => t == Sweeper
    case ExpList(_) => t == Sweeper
    case ExpNext(p, todo, mark) => t == Sweeper && Covers(sh, p, todo, mark)
    case ExpConn(p, mark) => t == Sweeper && Covers(sh, p, [], mark)
    case ExpClose(p, d, mark) => t == Sweeper && d in sh.chan && Covers(sh, p, [], mark)
    case ExpDelete(p, mark) => t == Sweeper && Covers(sh, p, [], mark)
  }

  /** A loaded seat is the stored one, or its player has been deleted since. */
  ghost predicate SeatCopied(sh: Shared, stored: Option<PlayerId>, copied: Option<PlayerId>) {
    || copied == stored
    || (stored.None? && copied.value in sh.used && copied.value !in sh.db.players)
  }

  ghost predicate RowIs(sh: Shared, g: GameId, st: State, v: nat) {
    g in sh.db.games && sh.db.games[g].state == st && v == sh.Version(g)
  }

  ghost predicate Attended(sh: Shared, t: Tid, g: GameId, st: State, v: nat) {
    t.Reader? && RowIs(sh, g, st, v)
  }

  ghost predicate ClosedRow(sh: Shared, g: GameId, st: State, v: nat) {
    RowIs(sh, g, st, v) && st.status == Status.Closed
  }

  ghost predicate ThenOk(sh: Shared, t: Tid, g: GameId, k: Then) {
    match k
    case ThenLeave(_) => true
    case ThenConnList(_, view, v) => Attended(sh, t, g, view.row.state, v)
    case ThenTell(e, row, v) => Attended(sh, t, g, row.state, v) && SnapOf(e).None? && !e.Direct?
    case ThenBroadcast(row, v) => Attended(sh, t, g, row.state, v)
    case ThenClose(_, _, row, v, _) => ClosedRow(sh, g, row.state, v)
  }

  /** Snapshots to be sent show the current state, and come last; direct replies go to the asking connection only. */
  ghost predicate MsgsOk(sh: Shared, t: Tid, g: GameId, todo: seq<ConnId>, msgs: seq<Msg>) {
    && (forall d :: d in todo ==> d in sh.chan)
    && (forall k :: 0 <= k < |msgs| && SnapOf(msgs[k]).Some? ==>
          k == |msgs| - 1 && SnapOf(msgs[k]).value.game == g
          && RowIs(sh, g, SnapOf(msgs[k]).value.Shows(), SnapOf(msgs[k]).value.version))
    && (forall k :: 0 <= k < |msgs| && msgs[k].Direct? ==> t.Reader? && todo == [t.Mine()])
  }

  /** What a control state under the lock of g says about the goroutine's own progress. */
  ghost predicate Local(sh: Shared, t: Tid, g: GameId, i: InPc) {
    || i.LeaveLock?
    || (Starting(i) && StartOk(sh, t, g, i))
    || (Copying(i) && CopyOk(sh, t, g, i))
    || (!Starting(i) && !Copying(i) && RowOk(sh, t, g, i))
  }

  /** Control states in which a goroutine begins its work under the lock. */
  predicate Starting(i: InPc) {
    i.ConnReload? || i.ActCheck? || i.DetachCheck? || i.ExpReload? || i.GameLoad?
  }

  /** Control states with a copy of the row, or about to load one. */
  predicate Copying(i: InPc) {
    i.ConnSave? || i.ConnAttach? || i.ActLoad? || i.ActSave? || i.ExpSave?
  }

  /** The copy of the row is still of the stored row. */
  ghost predicate CopyOk(sh: Shared, t: Tid, g: GameId, i: InPc) {
    match i
    case ConnSave(p, copy, seat, joined) =>
      && t.Reader? && sh.PlayerOn(t.Mine()) == Some(p)
      && Here(sh, g, t.Mine())
      && Live(sh, g)
      && SeatCopied(sh, sh.db.games[g].host, copy.host)
      && (if joined then
            && seat == Guest && JoinGame(sh.db.games[g].state) == Success(copy.state)
            && sh.db.games[g].guest.None? && copy.guest == Some(p) && copy.host != Some(p)
            && (p in sh.db.players ==> !sh.Place(t.Mine()).In(g))
          else
            && copy.state == sh.db.games[g].state && SeatCopied(sh, sh.db.games[g].guest, copy.guest)
            && copy.PlayerOf(seat) == Some(p))
    case ConnAttach(seat, row, v, joined) =>
      && Attended(sh, t, g, row.state, v) && row.state.status != Status.Closed
      && sh.PlayerOn(t.Mine()).Some?
      && (sh.PlayerOn(t.Mine()).value in sh.db.players ==> sh.db.games[g].PlayerOf(seat) == sh.PlayerOn(t.Mine()))
      && (sh.Place(t.Mine()) == Nowhere || (sh.Place(t.Mine()).In(g) && !joined))
    case ActLoad(a, seat, p) =>
      t.Reader? && a.NeedsGame() && sh.Place(t.Mine()) == At(g, seat) && sh.PlayerOn(t.Mine()) == Some(p)
    case ActSave(a, seat, p, copy) =>
      && t.Reader? && a.NeedsGame() && sh.Place(t.Mine()) == At(g, seat) && sh.PlayerOn(t.Mine()) == Some(p)
      && Live(sh, g) && Apply(sh.db.games[g].state, AttemptOf(a, seat)) == Success(copy.state)
      && SeatCopied(sh, sh.db.games[g].host, copy.host) && SeatCopied(sh, sh.db.games[g].guest, copy.guest)
    case ExpSave(p, todo, mark, copy, _) =>
      && t == Sweeper && Covers(sh, p, [g] + todo, mark)
      && Live(sh, g) && CloseGame(sh.db.games[g].state) == Success(copy.state)
      && copy.lastActive == sh.db.games[g].lastActive
      && SeatCopied(sh, sh.db.games[g].host, copy.host) && SeatCopied(sh, sh.db.games[g].guest, copy.guest)
    case _ => false
  }

  /** The row as saved is still the stored one. */
  ghost predicate RowOk(sh: Shared, t: Tid, g: GameId, i: InPc) {
    match i
    case ConnView(_, row, v, joined, was) => Attended(sh, t, g, row.state, v) && (was ==> !joined)
    case ConnList(_, view, v) => Attended(sh, t, g, view.row.state, v)
    case ActDetach(_, row, v) => t.Reader? && sh.Place(t.Mine()).In(g) && ClosedRow(sh, g, row.state, v)
    case Tell(e, row, v) => Attended(sh, t, g, row.state, v) && SnapOf(e).None? && !e.Direct?
    case CastView(row, v) => Attended(sh, t, g, row.state, v)
    case CastList(view, v) => Attended(sh, t, g, view.row.state, v)
    case CloseView(_, _, row, v, _) => ClosedRow(sh, g, row.state, v)
    case CloseList(_, _, row, v, viewed, _) =>
      ClosedRow(sh, g, row.state, v) && (viewed.Some? ==> viewed.value.row.state == row.state)
    case Sends(todo, msgs, _, next, k) => MsgsOk(sh, t, g, todo, msgs) && ThenOk(sh, t, g, k) && next < |msgs|
    case ExpDetach(p, todo, mark, _, row, v) =>
      t == Sweeper && Covers(sh, p, todo, mark) && ClosedRow(sh, g, row.state, v)
    case GameDetach => t == Sweeper
    case GameClose(todo) => t == Sweeper && sh.reg.Attached(g) == {} && (forall d :: d in todo ==> d in sh.chan)
    case GameDelete => t == Sweeper && sh.reg.Attached(g) == {}
    case _ => false
  }

  /** Where the goroutine will continue after releasing the lock, once that is decided. */
  function Onward(i: InPc): Option<OutPc> {
    match i
    case CloseView(_, _, _, _, o) => Some(o)
    case CloseList(_, _, _, _, _, o) => Some(o)
    case LeaveLock(o) => Some(o)
    case Sends(_, _, _, _, k) => if k.ThenLeave? || k.ThenClose? then Some(k.out) else None
    case _ => None
  }

  /** The game has just been closed, and its connections are about to be detached. */
  predicate ClosingUp(i: InPc) {
    i.ActDetach? || i.CloseView? || i.CloseList? || i.ExpDetach? || (i.Sends? && i.after.ThenClose?)
  }

  predicate CarriesSnap(msgs: seq<Msg>) {
    exists k :: 0 <= k < |msgs| && SnapOf(msgs[k]).Some?
  }

  /** Connection d may not have been told the current state yet. */
  predicate Untold(t: Tid, i: InPc, d: ConnId) {
    match i
    case ConnAttach(_, _, _, joined) => joined
    case ConnView(_, _, _, joined, _) => joined || t == Reader(d)
    case ConnList(_, _, _) => t != Reader(d)
    case ActDetach(_, _, _) => true
    case Tell(_, _, _) => true
    case CastView(_, _) => true
    case CastList(_, _) => true
    case CloseView(_, _, _, _, _) => true
    case CloseList(_, _, _, _, _, _) => true
    case ExpDetach(_, _, _, _, _, _) => true
    case Sends(todo, msgs, _, _, k) =>
      || (d in todo && CarriesSnap(msgs))
      || k.ThenTell? || k.ThenBroadcast? || k.ThenClose?
      || (k.ThenConnList? && t != Reader(d))
    case _ => false
  }

  /** Only a game that is being closed may have connections without being open. */
  ghost predicate AttachedOk(sh: Shared, g: GameId, i: InPc) {
    ClosingUp(i) || sh.reg.Attached(g) == {} || Live(sh, g)
  }

  /** Whoever is not to be told any more has been told. */
  ghost predicate ToldOk(sh: Shared, t: Tid, g: GameId, i: InPc) {
    g in sh.stale || forall d :: d in sh.reg.Attached(g) && !Untold(t, i, d) ==> Informed(sh, g, d)
  }

  ghost predicate OnwardOk(sh: Shared, t: Tid, i: InPc) {
    match Onward(i)
    case Some(o) => OutOk(sh, t, o)
    case None => true
  }

  ghost predicate InOk(sh: Shared, t: Tid, g: GameId, i: InPc) {
    AttachedOk(sh, g, i) && ToldOk(sh, t, g, i) && Local(sh, t, g, i) && OnwardOk(sh, t, i)
  }

  ghost predicate PhaseOk(sh: Shared, t: Tid, phase: Phase) {
    || (phase.Out? && OutOk(sh, t, phase.Going()))
    || (phase.Waiting? && StartOk(sh, t, phase.InGame(), phase.Doing()))
    || (phase.Inside? && InOk(sh, t, phase.InGame(), phase.Doing()))
    || (phase.Exiting? && OutOk(sh, t, phase.Going()))
  }

  ghost predicate LockFree(w: World, g: GameId) {
    forall t :: !IsInside(w, t, g)
  }

  /** Every goroutine's assertion holds, and every game that nobody has locked is settled. */
  ghost predicate Justified(w: World) {
    && (forall t :: t in w.threads && t.Reader? ==> t.Mine() in w.sh.chan)
    && (forall t :: t in w.threads ==> PhaseOk(w.sh, t, w.Phase(t)))
    && (forall g :: LockFree(w, g) ==> Settled(w.sh, g))
  }

  ghost predicate Inv(w: World) {
    LockInv(w) && Global(w.sh) && Justified(w)
  }
}
