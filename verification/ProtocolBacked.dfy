/** Every control state is backed by the goroutine's task and by what its own steps have found for that. */
module ProtocolBacked {
  import opened Wrappers
  import opened Rules
  import opened Store
  import opened Protocol
  import opened ProtocolRecall

  /** The goroutine serves request a. */
  predicate For(m: Memory, a: Action) {
    match m.task
    case Some(Asked(_, b)) => b == a
    case _ => false
  }

  predicate Authenticating(m: Memory, p: PlayerId) {
    match m.task
    case Some(Asked(_, Authenticate(q, _))) => q == p
    case _ => false
  }

  predicate Replacing(m: Memory) {
    match m.task
    case Some(Asked(_, Authenticate(_, _))) => true
    case _ => false
  }

  predicate Connecting(m: Memory, g: GameId) {
    match m.task
    case Some(Asked(_, Connect(h, _))) => h == g
    case _ => false
  }

  predicate ExpiringPlayer(m: Memory, p: PlayerId) {
    match m.task
    case Some(Expiring(q, _)) => q == p
    case _ => false
  }

  predicate EndingGame(m: Memory, g: GameId) {
    match m.task
    case Some(Ending(h, _)) => h == g
    case _ => false
  }

  predicate IsAsked(m: Memory) {
    match m.task
    case Some(Asked(_, _)) => true
    case _ => false
  }

  /** The refusal is deserved. */
  ghost predicate BackedRefusal(m: Memory, code: Code) {
    (m.task == Some(Malformed) && code == BadRequest) || (IsAsked(m) && Refusing(code) in m.found)
  }

  ghost predicate Granted(m: Memory) {
    IsAsked(m) && Granting in m.found
  }

  ghost predicate BackedResume(m: Memory, d: ConnId, k: Resume) {
    match k
    case Rest => Replacing(m) && Registered(d) in m.found
    case GoConnect(g, _, digest) => For(m, Connect(g, digest))
    case GoForget => m.task == Some(Gone)
    case GoDelete(p, _) => ExpiringPlayer(m, p) && Inactive in m.found && Registered(d) in m.found
  }

  ghost predicate BackedStart(m: Memory, g: GameId, i: InPc) {
    match i
    case ConnReload(_, digest) => For(m, Connect(g, digest))
    case ActCheck(a) => For(m, a)
    case DetachCheck(d, _, k) => BackedResume(m, d, k)
    case ExpReload(p, _, _) => ExpiringPlayer(m, p) && Inactive in m.found
    case GameLoad(cutoff) => m.task == Some(Ending(g, cutoff)) && forall d :: Attached(d) !in m.found
    case _ => false
  }

  /** An expired player has no connection that is not closing. */
  ghost predicate Cut(sh: Shared, m: Memory) {
    Unregistered in m.found || exists d: ConnId :: Registered(d) in m.found && sh.Closing(d)
  }

  /** A job is finished when it has removed what it was to, has found that active, or was hampered by the store. */
  ghost predicate Finished(m: Memory) {
    match m.task
    case Some(Expiring(_, _)) => Removed in m.found || Spared in m.found || Failing in m.found
    case Some(Ending(_, _)) => Removed in m.found || Spared in m.found || Failing in m.found
    case _ => true
  }

  ghost predicate BackedOut(sh: Shared, m: Memory, o: OutPc) {
    (o.Idle? && Finished(m)) || o.Done? || BackedBusy(sh, m, o)
  }

  ghost predicate BackedBusy(sh: Shared, m: Memory, o: OutPc) {
    match o
    case Idle => false
    case Done => false
    case Dispatch(a) => For(m, a)
    case Gate(a) => For(m, a)
    case AuthCheck(p, digest) => For(m, Authenticate(p, digest))
    case AuthLoad(p, digest) => For(m, Authenticate(p, digest))
    case AuthTouch(p) => Authenticating(m, p) && Granting in m.found
    case AuthRegister(p) => Authenticating(m, p) && Granting in m.found
    case AuthReply(prior) =>
      Replacing(m) && Granting in m.found && (match prior case Some(d) => Registered(d) in m.found case None => true)
    case AuthNotify(d) => Replacing(m) && Granting in m.found && Registered(d) in m.found
    case AuthClose(d) => Replacing(m) && Granting in m.found && Registered(d) in m.found
    case ConnLoad(g, digest) => For(m, Connect(g, digest))
    case ConnPlayer(g, digest) => For(m, Connect(g, digest))
    case ConnCurrent(g, _, digest) => For(m, Connect(g, digest))
    case WithGame(a) => For(m, a)
    case SendErr(code) => BackedRefusal(m, code)
    case Lock(g, i) => BackedStart(m, g, i)
    case DetachRead(d, _, k) => BackedResume(m, d, k)
    case DiscClose => m.task == Some(Gone)
    case DiscForget => m.task == Some(Gone)
    case ExpLoad(p, cutoff) => m.task == Some(Expiring(p, cutoff))
    case ExpList(p) => ExpiringPlayer(m, p) && Inactive in m.found
    case ExpNext(p, _, _) => ExpiringPlayer(m, p) && Inactive in m.found
    case ExpConn(p, _) => ExpiringPlayer(m, p) && Inactive in m.found
    case ExpClose(p, d, _) => ExpiringPlayer(m, p) && Inactive in m.found && Registered(d) in m.found
    case ExpDelete(p, _) => ExpiringPlayer(m, p) && Inactive in m.found && Cut(sh, m)
  }

  /** Where a goroutine goes on after a lock, which is not to end another game. */
  ghost predicate BackedGoing(sh: Shared, m: Memory, o: OutPc) {
    BackedOut(sh, m, o) && match o case Lock(_, i) => !i.GameLoad? case _ => true
  }

  /** The game was closed for the reason given, by whoever sat in the seat. */
  ghost predicate BackedOver(m: Memory, g: GameId, reason: Reason, side: Seat) {
    && Sits(g, side) in m.found && Saves(g, Changed(Leave)) in m.found
    && match reason
       case PlayerLeft => For(m, DoLeave)
       case PlayerExpired => Inactive in m.found && (match m.task case Some(Expiring(_, _)) => true case _ => false)
  }

  /** A connection that the task detaches has been found in the seat. */
  ghost predicate HasLeft(m: Memory, g: GameId, seat: Seat) {
    exists d: ConnId :: Leaves(d, g, seat) in m.found && Parting(m, d)
  }

  /** The message tells what has been found. */
  ghost predicate BackedMsg(m: Memory, g: GameId, msg: Msg) {
    match msg
    case Direct(_, OkConnected(snap)) => Granted(m) && Connecting(m, g) && Sits(g, snap.you) in m.found
    case Direct(_, Ok) => Granted(m)
    case Direct(_, Error(_)) => false
    case Replaced => false
    case OpponentConnected(seat) =>
      Granted(m) && Connecting(m, g) && Sits(g, seat) in m.found && Comes(g) in m.found
    case OpponentDisconnected(seat) => !Connecting(m, g) && HasLeft(m, g, seat)
    case RematchRequested(side) =>
      && For(m, DoRematch) && Sits(g, side) in m.found && Saves(g, Changed(AskRematch(side))) in m.found
      && Pends(g, side) in m.found
    case RematchDeclined(side) =>
      For(m, DoDecline) && Sits(g, side) in m.found && Saves(g, Changed(Decline(side))) in m.found
    case GameOver(reason, side) => BackedOver(m, g, reason, side)
    case StateIs(_) => true
  }

  /** The task detaches connection d: its own, or the registered one of the player it replaces or expires. */
  ghost predicate Parting(m: Memory, d: ConnId) {
    match m.task
    case Some(Asked(_, Authenticate(_, _))) => Registered(d) in m.found
    case Some(Asked(_, Connect(_, _))) => true
    case Some(Gone) => true
    case Some(Expiring(_, _)) => Registered(d) in m.found && Inactive in m.found
    case _ => false
  }

  ghost predicate BackedThen(sh: Shared, m: Memory, g: GameId, k: Then) {
    match k
    case ThenLeave(o) => BackedGoing(sh, m, o)
    case ThenConnList(seat, _, _) =>
      Granted(m) && Connecting(m, g) && Sits(g, seat) in m.found && Comes(g) in m.found
    case ThenTell(e, _, _) => IsAsked(m) && BackedMsg(m, g, e)
    case ThenBroadcast(_, _) => IsAsked(m)
    case ThenClose(reason, side, _, _, o) => BackedOver(m, g, reason, side) && BackedGoing(sh, m, o)
  }

  /** The game has been inactive since before the job's cutoff. */
  ghost predicate Overdue(sh: Shared, m: Memory, g: GameId) {
    match m.task
    case Some(Ending(h, cutoff)) => h == g && InactiveGame(sh, g, cutoff)
    case _ => false
  }

  /** Everybody who was attached to the game is closing, but for some. */
  ghost predicate Evicted(sh: Shared, m: Memory, but: set<ConnId>) {
    forall d :: Attached(d) in m.found ==> d in but || sh.Closing(d)
  }

  ghost predicate BackedIn(sh: Shared, m: Memory, g: GameId, i: InPc) {
    BackedStart(m, g, i) || BackedWork(sh, m, g, i)
  }

  ghost predicate BackedWork(sh: Shared, m: Memory, g: GameId, i: InPc) {
    match i
    case ConnSave(_, _, seat, _) => Granted(m) && Connecting(m, g) && Sits(g, seat) in m.found
    case ConnAttach(seat, _, _, _) => Granted(m) && Connecting(m, g) && Sits(g, seat) in m.found
    case ConnView(seat, _, _, _, was) =>
      Granted(m) && Connecting(m, g) && Sits(g, seat) in m.found && (was || Comes(g) in m.found)
    case ConnList(seat, _, _) => Granted(m) && Connecting(m, g) && Sits(g, seat) in m.found && Comes(g) in m.found
    case ActLoad(a, _, _) => For(m, a)
    case ActSave(a, seat, _, _) => For(m, a) && Granting in m.found && Sits(g, seat) in m.found
    case ActDetach(seat, _, _) => Granted(m) && BackedOver(m, g, PlayerLeft, seat)
    case Tell(e, _, _) => IsAsked(m) && BackedMsg(m, g, e)
    case CastView(_, _) => IsAsked(m)
    case CastList(_, _) => IsAsked(m)
    case CloseView(reason, side, _, _, o) => BackedOver(m, g, reason, side) && BackedGoing(sh, m, o)
    case CloseList(reason, side, _, _, _, o) => BackedOver(m, g, reason, side) && BackedGoing(sh, m, o)
    case Sends(_, msgs, _, _, k) => (forall msg :: msg in msgs ==> BackedMsg(m, g, msg)) && BackedThen(sh, m, g, k)
    case ExpSave(p, _, _, _, seat) => ExpiringPlayer(m, p) && Inactive in m.found && Sits(g, seat) in m.found
    case ExpDetach(p, _, _, seat, _, _) =>
      ExpiringPlayer(m, p) && Inactive in m.found && BackedOver(m, g, PlayerExpired, seat)
    case GameDetach => Overdue(sh, m, g) && forall d :: Attached(d) in m.found ==> d in sh.reg.Attached(g)
    case GameClose(todo) => Overdue(sh, m, g) && Evicted(sh, m, set d | d in todo) && WereAttached(m, todo)
    case GameDelete => Overdue(sh, m, g) && Evicted(sh, m, {})
    case LeaveLock(o) => BackedGoing(sh, m, o)
    case _ => false
  }

  /** All of them were attached to the game. */
  ghost predicate WereAttached(m: Memory, todo: seq<ConnId>) {
    forall d :: d in todo ==> Attached(d) in m.found
  }

  ghost predicate Backed(sh: Shared, m: Memory, phase: Phase) {
    || (phase.Out? && BackedOut(sh, m, phase.Going()))
    || (phase.Waiting? && BackedStart(m, phase.InGame(), phase.Doing()))
    || (phase.Inside? && BackedIn(sh, m, phase.InGame(), phase.Doing()))
    || (phase.Exiting? && BackedGoing(sh, m, phase.Going()))
  }
}
