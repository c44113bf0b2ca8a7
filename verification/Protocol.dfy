/**
 * The hub as a protocol among goroutines. Every critical section of the registry lock, every statement or
 * transaction of the store, every send and every acquisition or release of a game lock is one step; steps of
 * different goroutines interleave freely.
 *
 * A connection has one goroutine that reads and dispatches its frames; the sweeper has one goroutine.
 */
module Protocol {
  import opened Wrappers
  import opened Timestamps
  import opened Rules
  import opened Store
  import opened Registry
  import opened Snapshots

  type ConnId = nat
  type RequestId = int
  type LockRef = nat

  // ----- Messages and outbound channels -----

  datatype Code =
    | BadRequest | UnknownAction | NotAuthenticated | AlreadyAuthenticated | InvalidCredentials
    | InvalidGameCredentials | GameFull | NotInGame | Internal | Broken(rule: RuleError)

  /** A snapshot of a game after some number of saves, rendered for a seat. */
  datatype Snap = Snap(game: GameId, version: nat, view: GameView, you: Seat) {
    function Shows(): State {
      view.row.state
    }

    /** What the client receives. */
    function Payload(): Snapshot {
      view.For(game, you)
    }
  }

  datatype Reply = Ok | OkConnected(snap: Snap) | Error(code: Code)

  datatype Reason = PlayerLeft | PlayerExpired

  /** Direct replies echo a request; everything else is an event. */
  datatype Msg =
    | Direct(rid: RequestId, reply: Reply)
    | Replaced
    | OpponentConnected(seat: Seat)
    | OpponentDisconnected(seat: Seat)
    | RematchRequested(side: Seat)
    | RematchDeclined(side: Seat)
    | GameOver(reason: Reason, side: Seat)
    | StateIs(snap: Snap)

  function SnapOf(m: Msg): Option<Snap> {
    match m
    case StateIs(snap) => Some(snap)
    case Direct(_, OkConnected(snap)) => Some(snap)
    case _ => None
  }

  const SEND_BUFFER := 32

  const CLOSE_NORMAL := 1000
  const CLOSE_REPLACED := 4000
  const CLOSE_AUTH_TIMEOUT := 4001
  const CLOSE_PLAYER_EXPIRED := 4002
  const CLOSE_GAME_EXPIRED := 4003
  const CLOSE_SLOW_CONSUMER := 4004

  /**
   * A connection's outbound side. `log` is everything ever enqueued, of which the first `taken` messages have
   * been taken by the writer; `asked` is every request that is owed a direct reply, in order of arrival.
   */
  datatype Chan = Chan(closing: Option<int>, log: seq<Msg>, taken: nat, asked: seq<RequestId>)

  function Close(ch: Chan, code: int): Chan {
    if ch.closing.Some? then ch else ch.(closing := Some(code))
  }

  function Send(ch: Chan, m: Msg): Chan {
    if ch.closing.Some? then ch
    else if |ch.log| >= ch.taken + SEND_BUFFER then Close(ch, CLOSE_SLOW_CONSUMER)
    else ch.(log := ch.log + [m])
  }

  // ----- What the goroutines share -----

  /** One save of a game: by a player who was already seated, or because of a change to its state. */
  datatype Commit = Reconnected | Changed(attempt: Attempt)

  /** The saves of a game since it was created or the server started, and the states before, between and after them. */
  datatype History = History(commits: seq<Commit>, states: seq<State>) {
    function Start(): State {
      if states == [] then NewState() else states[0]
    }
  }

  /**
   * The store and the registry, and what is recorded about them: every player id ever used, the saves of every
   * game, the games that had a snapshot fail to build since their last broadcast, and how often each player was
   * seated in a game.
   */
  datatype Shared = Shared(
    db: Db, reg: Reg<ConnId>, chan: map<ConnId, Chan>,
    used: set<PlayerId>, saves: map<GameId, History>, stale: set<GameId>, seatings: map<PlayerId, nat>)
  {
    function Place(c: ConnId): Place {
      reg.LinkOf(c).place
    }

    function PlayerOn(c: ConnId): Option<PlayerId> {
      reg.LinkOf(c).player
    }

    predicate Closing(c: ConnId) {
      c in chan && chan[c].closing.Some?
    }

    function ClosingConns(): set<ConnId> {
      set c | c in chan && chan[c].closing.Some?
    }

    /** The view of a loaded game. */
    function View(g: GameId, row: Game): (v: GameView)
      ensures v.row == row
    {
      ViewOf(db, reg, ClosingConns(), g, row)
    }

    /** The seats of the connections attached to game g. */
    function SeatsIn(g: GameId): map<ConnId, Seat> {
      map c | c in reg.Attached(g) && Place(c).At? :: Place(c).seat
    }

    /** Everything ever sent to connection c. */
    function Log(c: ConnId): seq<Msg> {
      if c in chan then chan[c].log else []
    }

    /** The code connection c closes with, if it closes. */
    function Code(c: ConnId): Option<int> {
      if c in chan then chan[c].closing else None
    }

    /** The requests of connection c that were owed a direct reply. */
    function Requests(c: ConnId): seq<RequestId> {
      if c in chan then chan[c].asked else []
    }

    /** The stored state of game g. */
    function State(g: GameId): Option<State> {
      if g in db.games then Some(db.games[g].state) else None
    }

    function Saves(g: GameId): History {
      if g in saves then saves[g] else History([], [])
    }

    function Version(g: GameId): nat {
      if g in saves then |saves[g].commits| else 0
    }

    function Seatings(p: PlayerId): nat {
      if p in seatings then seatings[p] else 0
    }

    function Sent(c: ConnId, m: Msg): Shared {
      if c in chan then this.(chan := chan[c := Send(chan[c], m)]) else this
    }

    function Closed(c: ConnId, code: int): Shared {
      if c in chan then this.(chan := chan[c := Close(chan[c], code)]) else this
    }

    /** Records that connection c is owed a direct reply. */
    function Asked(c: ConnId, rid: RequestId): Shared {
      if c in chan then this.(chan := chan[c := chan[c].(asked := chan[c].asked + [rid])]) else this
    }

    function Committed(g: GameId, commit: Commit, st: State): Shared {
      if g in saves
      then this.(saves := saves[g := History(saves[g].commits + [commit], saves[g].states + [st])])
      else this
    }

    function SeatTaken(p: PlayerId): Shared {
      this.(seatings := seatings[p := Seatings(p) + 1])
    }
  }

  // ----- Control states -----

  datatype Tid = Reader(conn: ConnId) | Sweeper {
    /** A reader's own connection. */
    function Mine(): ConnId {
      if Reader? then conn else 0
    }
  }

  datatype Action =
    | Authenticate(player: PlayerId, digest: Digest) | BadAuthenticate
    | Connect(game: GameId, digest: Digest) | BadConnect
    | Play(move: Option<Move>) | DoRematch | DoDecline | DoLeave
    | Unknown
  {
    predicate NeedsGame() {
      Play? || DoRematch? || DoDecline? || DoLeave?
    }

    predicate NeedsPlayer() {
      !Authenticate? && !BadAuthenticate?
    }
  }

  /** The change a game action attempts from a seat. */
  function AttemptOf(a: Action, seat: Seat): Attempt {
    match a
    case Play(m) => Throw(seat, if m.Some? then m.value else Pending)
    case DoRematch => AskRematch(seat)
    case DoDecline => Decline(seat)
    case _ => Leave
  }

  /** What follows a detach. */
  datatype Resume =
    | Rest
    | GoConnect(game: GameId, player: PlayerId, digest: Digest)
    | GoForget
    | GoDelete(expired: PlayerId, mark: int)

  /** Outside any game lock. `mark` is how often the expiring player had been seated when its games were listed. */
  datatype OutPc =
    | Idle
    | Done
    | Dispatch(action: Action)
    | Gate(action: Action)
    | AuthCheck(player: PlayerId, digest: Digest)
    | AuthLoad(player: PlayerId, digest: Digest)
    | AuthTouch(player: PlayerId)
    | AuthRegister(player: PlayerId)
    | AuthReply(replaced: Option<ConnId>)
    | AuthNotify(prior: ConnId)
    | AuthClose(prior: ConnId)
    | ConnLoad(game: GameId, digest: Digest)
    | ConnPlayer(game: GameId, digest: Digest)
    | ConnCurrent(game: GameId, player: PlayerId, digest: Digest)
    | WithGame(action: Action)
    | SendErr(code: Code)
    | Lock(game: GameId, body: InPc)
    | DetachRead(conn: ConnId, tries: int, resume: Resume)
    | DiscClose
    | DiscForget
    | ExpLoad(player: PlayerId, cutoff: Time)
    | ExpList(player: PlayerId)
    | ExpNext(player: PlayerId, todo: seq<GameId>, mark: int)
    | ExpConn(player: PlayerId, mark: int)
    | ExpClose(player: PlayerId, conn: ConnId, mark: int)
    | ExpDelete(player: PlayerId, mark: int)

  /** What follows a loop of sends under a game lock. */
  datatype Then =
    | ThenLeave(out: OutPc)
    | ThenConnList(seat: Seat, view: GameView, version: nat)
    | ThenTell(event: Msg, row: Game, version: nat)
    | ThenBroadcast(row: Game, version: nat)
    | ThenClose(reason: Reason, side: Seat, row: Game, version: nat, out: OutPc)

  /**
   * Under a game lock. A `copy` is a loaded game, possibly changed and not yet saved; a `row` has been saved. `seats`
   * are the seats that a broadcast renders its snapshots for.
   */
  datatype InPc =
    | ConnReload(player: PlayerId, digest: Digest)
    | ConnSave(player: PlayerId, copy: Game, seat: Seat, joined: bool)
    | ConnAttach(seat: Seat, row: Game, version: nat, joined: bool)
    | ConnView(seat: Seat, row: Game, version: nat, joined: bool, was: bool)
    | ConnList(seat: Seat, view: GameView, version: nat)
    | ActCheck(action: Action)
    | ActLoad(action: Action, seat: Seat, player: PlayerId)
    | ActSave(action: Action, seat: Seat, player: PlayerId, copy: Game)
    | ActDetach(seat: Seat, row: Game, version: nat)
    | Tell(event: Msg, row: Game, version: nat)
    | CastView(row: Game, version: nat)
    | CastList(view: GameView, version: nat)
    | CloseView(reason: Reason, side: Seat, row: Game, version: nat, out: OutPc)
    | CloseList(reason: Reason, side: Seat, row: Game, version: nat, viewed: Option<GameView>, out: OutPc)
    | Sends(todo: seq<ConnId>, msgs: seq<Msg>, seats: map<ConnId, Seat>, next: nat, after: Then)
    | DetachCheck(conn: ConnId, tries: int, resume: Resume)
    | ExpReload(player: PlayerId, todo: seq<GameId>, mark: int)
    | ExpSave(player: PlayerId, todo: seq<GameId>, mark: int, copy: Game, seat: Seat)
    | ExpDetach(player: PlayerId, todo: seq<GameId>, mark: int, seat: Seat, row: Game, version: nat)
    | GameLoad(cutoff: Time)
    | GameDetach
    | GameClose(todo: seq<ConnId>)
    | GameDelete
    | LeaveLock(out: OutPc)

  /** A loop of sends from its start. */
  function SendAll(todo: seq<ConnId>, msgs: seq<Msg>, seats: map<ConnId, Seat>, after: Then): InPc {
    Sends(todo, msgs, seats, 0, after)
  }

  /** The request being served, and whether serving it has written to the store. */
  datatype Serving = Serving(rid: RequestId, wrote: bool)

  /**
   * How a goroutine stands to a game lock: it uses lock object `l` from registering for it until it is done with it.
   */
  datatype Phase =
    | Out(OutPc)
    | Waiting(GameId, LockRef, InPc)
    | Inside(GameId, LockRef, InPc)
    | Exiting(GameId, LockRef, OutPc)
  {
    /** The game whose lock is used, if one is. */
    function InGame(): GameId {
      match this
      case Out(_) => 0
      case Waiting(g, _, _) => g
      case Inside(g, _, _) => g
      case Exiting(g, _, _) => g
    }

    function Ref(): LockRef {
      match this
      case Out(_) => 0
      case Waiting(_, l, _) => l
      case Inside(_, l, _) => l
      case Exiting(_, l, _) => l
    }

    /** What is done, or is to be done, under the lock. */
    function Doing(): InPc {
      match this
      case Waiting(_, _, i) => i
      case Inside(_, _, i) => i
      case _ => LeaveLock(Done)
    }

    function Going(): OutPc {
      match this
      case Out(o) => o
      case Exiting(_, _, o) => o
      case _ => Done
    }
  }

  datatype Thread = Thread(phase: Phase, serving: Serving)

  /** What the environment decides in a step: whether the store fails, the time, and the order of unordered listings. */
  datatype Choice = Choice(
    fail: bool, now: Time, conns: seq<ConnId>, games: seq<GameId>, newRef: LockRef, frame: Frame, job: Job)

  datatype Frame = Request(rid: RequestId, action: Action) | MalformedFrame(rid: RequestId) | SocketGone

  datatype Job = ExpirePlayer(player: PlayerId, cutoff: Time) | ExpireGame(game: GameId, cutoff: Time)

  datatype To<Pc> = To(sh: Shared, pc: Pc, serving: Serving)

  // ----- Steps outside game locks -----

  function Resumed(k: Resume): OutPc {
    match k
    case Rest => Idle
    case GoConnect(g, p, digest) => Lock(g, ConnReload(p, digest))
    case GoForget => DiscForget
    case GoDelete(p, mark) => ExpDelete(p, mark)
  }

  /** A frame arrives on an idle connection, or its socket fails. */
  function Receive(sh: Shared, c: ConnId, frame: Frame): To<OutPc> {
    match frame
    case Request(rid, action) => To(sh, Dispatch(action), Serving(rid, false))
    case MalformedFrame(rid) => To(sh.Asked(c, rid), SendErr(BadRequest), Serving(rid, false))
    case SocketGone => To(sh, DiscClose, Serving(0, false))
  }

  function Begin(sh: Shared, job: Job): To<OutPc> {
    match job
    case ExpirePlayer(p, cutoff) => To(sh, ExpLoad(p, cutoff), Serving(0, false))
    case ExpireGame(g, cutoff) => To(sh, Lock(g, GameLoad(cutoff)), Serving(0, false))
  }

  function Gated(sh: Shared, c: ConnId, a: Action): OutPc {
    if a.NeedsPlayer() && sh.PlayerOn(c).None? then SendErr(NotAuthenticated)
    else if a.NeedsGame() && sh.Place(c) == Nowhere then SendErr(NotInGame)
    else
      match a
      case Authenticate(p, digest) => AuthCheck(p, digest)
      case BadAuthenticate => SendErr(BadRequest)
      case Connect(g, digest) => ConnLoad(g, digest)
      case BadConnect => SendErr(BadRequest)
      case Play(m) => if m.None? || m.value == Pending then SendErr(Broken(InvalidMove)) else WithGame(a)
      case _ => WithGame(a)
  }

  /** Looks a game up with its secret. */
  function Load(sh: Shared, g: GameId, digest: Digest, fail: bool): Result<Game, Code> {
    if fail then Failure(Internal)
    else if g !in sh.db.games || sh.db.games[g].digest != digest then Failure(InvalidGameCredentials)
    else if sh.db.games[g].state.status == Status.Closed then Failure(Broken(GameClosed))
    else Success(sh.db.games[g])
  }

  /** One step of goroutine t outside any game lock; registering for a lock is not one of these. */
  function Free(sh: Shared, t: Tid, sv: Serving, o: OutPc, ch: Choice): To<OutPc> {
    var c := t.Mine();
    match o
    case Idle => if t.Reader? then Receive(sh, c, ch.frame) else Begin(sh, ch.job)
    case Done => To(sh, Done, sv)
    case Dispatch(a) =>
      if sh.Closing(c) then To(sh, Idle, sv)
      else To(sh.Asked(c, sv.rid), if a.Unknown? then SendErr(UnknownAction) else Gate(a), sv)
    case Gate(a) => To(sh, Gated(sh, c, a), sv)
    case AuthCheck(p, digest) =>
      To(sh, if sh.PlayerOn(c).Some? then SendErr(AlreadyAuthenticated) else AuthLoad(p, digest), sv)
    case AuthLoad(p, digest) =>
      if ch.fail then To(sh, SendErr(Internal), sv)
      else if p !in sh.db.players || sh.db.players[p].digest != digest then To(sh, SendErr(InvalidCredentials), sv)
      else To(sh, AuthTouch(p), sv)
    case AuthTouch(p) =>
      if ch.fail then To(sh, SendErr(Internal), sv)
      else To(sh.(db := TouchPlayer(sh.db, p, ch.now)), AuthRegister(p), sv.(wrote := true))
    case AuthRegister(p) =>
      To(sh.(reg := Bind(sh.reg, c, p)), AuthReply(Get(sh.reg.players, p)), sv)
    case AuthReply(replaced) =>
      To(sh.Sent(c, Direct(sv.rid, Ok)),
         if replaced.Some? && replaced.value != c then AuthNotify(replaced.value) else Idle, sv)
    case AuthNotify(prior) => To(sh.Sent(prior, Replaced), AuthClose(prior), sv)
    case AuthClose(prior) => To(sh.Closed(prior, CLOSE_REPLACED), DetachRead(prior, 0, Rest), sv)
    case ConnLoad(g, digest) =>
      var r := Load(sh, g, digest, ch.fail);
      To(sh, if r.Failure? then SendErr(r.error) else ConnPlayer(g, digest), sv)
    case ConnPlayer(g, digest) =>
      var p := sh.PlayerOn(c);
      To(sh, if p.Some? then ConnCurrent(g, p.value, digest) else Idle, sv)
    case ConnCurrent(g, p, digest) =>
      To(sh, if sh.Place(c) == Nowhere || sh.Place(c).In(g) then Lock(g, ConnReload(p, digest))
             else DetachRead(c, 0, GoConnect(g, p, digest)), sv)
    case WithGame(a) =>
      To(sh, if sh.Place(c) == Nowhere then SendErr(NotInGame) else Lock(sh.Place(c).game, ActCheck(a)), sv)
    case SendErr(code) => To(sh.Sent(c, Direct(sv.rid, Error(code))), Idle, sv)
    case Lock(_, _) => To(sh, o, sv)
    case DetachRead(d, tries, k) =>
      To(sh, if sh.Place(d) == Nowhere then Resumed(k) else Lock(sh.Place(d).game, DetachCheck(d, tries, k)), sv)
    case DiscClose => To(sh.Closed(c, CLOSE_NORMAL), DetachRead(c, 0, GoForget), sv)
    case DiscForget => To(sh.(reg := Forget(sh.reg, c)), Done, sv)
    case ExpLoad(p, cutoff) =>
      To(sh, if ch.fail || p !in sh.db.players || !Before(sh.db.players[p].lastActive, cutoff) then Idle
          else ExpList(p), sv)
    case ExpList(p) => To(sh, if ch.fail then Idle else ExpNext(p, ch.games, sh.Seatings(p)), sv)
    case ExpNext(p, todo, mark) =>
      To(sh, if todo == [] then ExpConn(p, mark) else Lock(todo[0], ExpReload(p, todo[1..], mark)), sv)
    case ExpConn(p, mark) =>
      To(sh, if p in sh.reg.players then ExpClose(p, sh.reg.players[p], mark) else ExpDelete(p, mark), sv)
    case ExpClose(p, d, mark) =>
      To(sh.Closed(d, CLOSE_PLAYER_EXPIRED), DetachRead(d, 0, GoDelete(p, mark)), sv)
    case ExpDelete(p, mark) => To(if ch.fail then sh else sh.(db := DeletePlayer(sh.db, p)), Idle, sv)
  }

  // ----- Steps under a game lock -----

  /** The connection joins game g if it has a free seat, or returns to its own. */
  function Seating(g: Game, p: PlayerId): Result<InPc, Code> {
    match g.SeatOf(p)
    case Some(seat) => Success(ConnSave(p, g, seat, false))
    case None =>
      if g.guest.Some? then Failure(GameFull)
      else
        var r := JoinGame(g.state);
        if r.Failure? then Failure(Broken(r.error))
        else Success(ConnSave(p, g.(state := r.value, guest := Some(p)), Guest, true))
  }

  /** Saves a copy of game g, if the store lets it. */
  function Saved(sh: Shared, g: GameId, copy: Game, actor: Option<PlayerId>, commit: Commit,
                 ch: Choice): Option<Shared> {
    if ch.fail then None
    else
      var r := SaveGame(sh.db, g, copy, actor, ch.now);
      if r.Failure? then None else Some(sh.(db := r.value).Committed(g, commit, copy.state))
  }

  function Following(k: Then): InPc {
    match k
    case ThenLeave(o) => LeaveLock(o)
    case ThenConnList(seat, view, v) => ConnList(seat, view, v)
    case ThenTell(e, row, v) => Tell(e, row, v)
    case ThenBroadcast(row, v) => CastView(row, v)
    case ThenClose(reason, side, row, v, o) => CloseView(reason, side, row, v, o)
  }

  /** What an acting connection does after its own `ok`. */
  function AfterOk(a: Action, seat: Seat, row: Game, v: nat): Then {
    match a
    case DoRematch =>
      if row.state.status == Active then ThenBroadcast(row, v) else ThenTell(RematchRequested(seat), row, v)
    case DoDecline => ThenTell(RematchDeclined(seat), row, v)
    case _ => ThenBroadcast(row, v)
  }

  /** A broadcast snapshot is rendered for the seat of its receiver. */
  function Rendered(m: Msg, seats: map<ConnId, Seat>, d: ConnId): Msg {
    if m.StateIs? && d in seats then StateIs(m.snap.(you := seats[d])) else m
  }

  /** The final snapshot of a closed game, if its view could be built. */
  function Final(g: GameId, v: nat, viewed: Option<GameView>): seq<Msg> {
    if viewed.Some? then [StateIs(Snap(g, v, viewed.value, Host))] else []
  }

  /** The next send of a loop, or the end of the loop. */
  function SendNext(sh: Shared, todo: seq<ConnId>, msgs: seq<Msg>, seats: map<ConnId, Seat>, next: nat, k: Then,
                    sv: Serving)
    : To<InPc>
  {
    if todo == [] || next >= |msgs| then To(sh, Following(k), sv)
    else
      var sh' := sh.Sent(todo[0], Rendered(msgs[next], seats, todo[0]));
      To(sh', if next + 1 < |msgs| then Sends(todo, msgs, seats, next + 1, k)
              else if |todo| > 1 then SendAll(todo[1..], msgs, seats, k)
              else Following(k), sv)
  }

  /** One step of goroutine t holding the lock of game g; releasing the lock is not one of these. */
  function Body(sh: Shared, t: Tid, g: GameId, sv: Serving, i: InPc, ch: Choice): To<InPc> {
    var c := t.Mine();
    match i
    case ConnReload(p, digest) =>
      var r := Load(sh, g, digest, ch.fail);
      var next := if r.Failure? then Failure(r.error) else Seating(r.value, p);
      To(sh, if next.Failure? then LeaveLock(SendErr(next.error)) else next.value, sv)
    case ConnSave(p, copy, seat, joined) =>
      var saved := Saved(sh, g, copy.(lastActive := ch.now), Some(p), if joined then Changed(Join) else Reconnected,
          ch);
      if saved.None? then To(sh, LeaveLock(SendErr(Internal)), sv)
      else
        To(if joined then saved.value.SeatTaken(p) else saved.value,
           ConnAttach(seat, copy.(lastActive := ch.now), saved.value.Version(g), joined), sv.(wrote := true))
    case ConnAttach(seat, row, v, joined) =>
      To(sh.(reg := Attach(sh.reg, c, g, seat)), ConnView(seat, row, v, joined, sh.Place(c).In(g)), sv)
    case ConnView(seat, row, v, joined, was) =>
      if ch.fail then To(sh.(stale := sh.stale + {g}), LeaveLock(SendErr(Internal)), sv)
      else
        var view := sh.View(g, row);
        To(sh, SendAll([c], [Direct(sv.rid, OkConnected(Snap(g, v, view, seat)))], map[],
                     if was then ThenLeave(Idle) else ThenConnList(seat, view, v)), sv)
    case ConnList(seat, view, v) =>
      To(sh, SendAll(ch.conns, [OpponentConnected(seat), StateIs(Snap(g, v, view, seat.Other()))], map[],
          ThenLeave(Idle)), sv)
    case ActCheck(a) =>
      (match sh.Place(c)
       case At(g', seat) =>
         if g' == g && sh.PlayerOn(c).Some? then To(sh, ActLoad(a, seat, sh.PlayerOn(c).value), sv)
         else To(sh, LeaveLock(SendErr(NotInGame)), sv)
       case Nowhere => To(sh, LeaveLock(SendErr(NotInGame)), sv))
    case ActLoad(a, seat, p) =>
      if ch.fail then To(sh, LeaveLock(SendErr(Internal)), sv)
      else if g !in sh.db.games then To(sh, LeaveLock(SendErr(NotInGame)), sv)
      else
        var r := Apply(sh.db.games[g].state, AttemptOf(a, seat));
        To(sh, if r.Failure? then LeaveLock(SendErr(Broken(r.error)))
               else ActSave(a, seat, p, sh.db.games[g].(state := r.value)), sv)
    case ActSave(a, seat, p, copy) =>
      var saved := Saved(sh, g, copy.(lastActive := ch.now), Some(p), Changed(AttemptOf(a, seat)), ch);
      if saved.None? then To(sh, LeaveLock(SendErr(Internal)), sv)
      else
        var v := saved.value.Version(g);
        To(saved.value,
           if a.DoLeave? then ActDetach(seat, copy.(lastActive := ch.now), v)
           else SendAll([c], [Direct(sv.rid, Ok)], map[], AfterOk(a, seat, copy.(lastActive := ch.now), v)),
           sv.(wrote := true))
    case ActDetach(seat, row, v) =>
      To(sh.(reg := Detach(sh.reg, c)),
         SendAll([c], [Direct(sv.rid, Ok)], map[], ThenClose(PlayerLeft, seat, row, v, Idle)), sv)
    case Tell(e, row, v) => To(sh, SendAll(ch.conns, [e], map[], ThenBroadcast(row, v)), sv)
    case CastView(row, v) =>
      if ch.fail then To(sh.(stale := sh.stale + {g}), LeaveLock(Idle), sv)
          else To(sh, CastList(sh.View(g, row), v), sv)
    case CastList(view, v) =>
      To(sh.(stale := sh.stale - {g}),
          SendAll(ch.conns, [StateIs(Snap(g, v, view, Host))], sh.SeatsIn(g), ThenLeave(Idle)), sv)
    case CloseView(reason, side, row, v, o) =>
      To(sh, CloseList(reason, side, row, v, if ch.fail then None else Some(sh.View(g, row)), o), sv)
    case CloseList(reason, side, row, v, viewed, o) =>
      To(sh.(reg := DetachSet(sh.reg, g, sh.reg.Attached(g))),
         SendAll(ch.conns, [GameOver(reason, side)] + Final(g, v, viewed), sh.SeatsIn(g), ThenLeave(o)), sv)
    case Sends(todo, msgs, seats, next, k) => SendNext(sh, todo, msgs, seats, next, k, sv)
    case DetachCheck(d, tries, k) =>
      (match sh.Place(d)
       case At(g', seat) =>
         if g' == g
         then To(sh.(reg := Detach(sh.reg, d)),
                 SendAll(ch.conns, [OpponentDisconnected(seat)], map[], ThenLeave(Resumed(k))), sv)
         else To(sh, LeaveLock(DetachRead(d, tries + 1, k)), sv)
       case Nowhere => To(sh, LeaveLock(DetachRead(d, tries + 1, k)), sv))
    case ExpReload(p, todo, mark) =>
      if ch.fail then To(sh, LeaveLock(Idle), sv)
      else if g !in sh.db.games || sh.db.games[g].SeatOf(p).None? || sh.db.games[g].state.status == Status.Closed
      then To(sh, LeaveLock(ExpNext(p, todo, mark)), sv)
      else
        var row := sh.db.games[g];
        To(sh, ExpSave(p, todo, mark, row.(state := After(row.state, Leave)), row.SeatOf(p).value), sv)
    case ExpSave(p, todo, mark, copy, seat) =>
      var saved := Saved(sh, g, copy, None, Changed(Leave), ch);
      if saved.None? then To(sh, LeaveLock(Idle), sv)
      else To(saved.value, ExpDetach(p, todo, mark, seat, copy, saved.value.Version(g)), sv)
    case ExpDetach(p, todo, mark, seat, row, v) =>
      To(sh.(reg := DetachSet(sh.reg, g, set d | d in sh.reg.Attached(g) && sh.PlayerOn(d) == Some(p))),
         CloseView(PlayerExpired, seat, row, v, ExpNext(p, todo, mark)), sv)
    case GameLoad(cutoff) =>
      To(sh, if ch.fail || g !in sh.db.games || !Before(sh.db.games[g].lastActive, cutoff) then LeaveLock(Idle)
             else GameDetach, sv)
    case GameDetach => To(sh.(reg := DetachSet(sh.reg, g, sh.reg.Attached(g))), GameClose(ch.conns), sv)
    case GameClose(todo) =>
      if todo == [] then To(sh, GameDelete, sv)
      else To(sh.Closed(todo[0], CLOSE_GAME_EXPIRED), GameClose(todo[1..]), sv)
    case GameDelete => To(if ch.fail then sh else sh.(db := DeleteGame(sh.db, g)), LeaveLock(Idle), sv)
    case LeaveLock(_) => To(sh, i, sv)
  }

  // ----- The whole system -----

  /** `refs` counts the goroutines between registering for the lock and being done with it. */
  datatype LockObj = LockObj(refs: int, holder: Option<Tid>)

  datatype World = World(
    sh: Shared, locks: map<GameId, LockRef>, objs: map<LockRef, LockObj>, threads: map<Tid, Thread>)
  {
    /** Where goroutine t is; a goroutine that does not exist counts as finished. */
    function On(t: Tid): Thread {
      if t in threads then threads[t] else Thread(Out(Done), Serving(0, false))
    }

    function Phase(t: Tid): Phase {
      On(t).phase
    }

    function Served(t: Tid): Serving {
      On(t).serving
    }

    function Obj(l: LockRef): LockObj {
      if l in objs then objs[l] else LockObj(0, None)
    }

    /** Goroutine t moves on. */
    function Moved(t: Tid, phase: Phase): World {
      this.(threads := threads[t := On(t).(phase := phase)])
    }
  }

  /** A listing of a set, each element once, in any order. */
  ghost predicate Lists<X(!new)>(s: seq<X>, xs: set<X>) {
    && (forall x :: x in s <==> x in xs)
    && (forall i, j :: 0 <= i < j < |s| ==> s[i] != s[j])
  }

  /** The connections a step lists, if it lists any. */
  function Listed(sh: Shared, t: Tid, g: GameId, i: InPc): Option<set<ConnId>> {
    var others := sh.reg.Attached(g) - (if t.Reader? then {t.Mine()} else {});
    match i
    case ConnList(_, _, _) => Some(others)
    case Tell(_, _, _) => Some(others)
    case CastList(_, _) => Some(sh.reg.Attached(g))
    case CloseList(_, _, _, _, _, _) => Some(sh.reg.Attached(g))
    case GameDetach => Some(sh.reg.Attached(g))
    case DetachCheck(d, _, _) => Some(sh.reg.Attached(g) - {d})
    case _ => None
  }

  datatype Event =
    | Go(t: Tid, choice: Choice)
    | NewConn(conn: ConnId)
    | NewPlayer(player: PlayerId, row: Player)
    | NewGame(game: GameId, host: PlayerId, digest: Digest, now: Time)
    | ForceClose(conn: ConnId, code: int)
    | Take(conn: ConnId)

  /** The games listed for an expiry are the player's open ones, in any order. */
  ghost predicate ListsGames(sh: Shared, o: OutPc, ch: Choice) {
    match o
    case ExpList(p) => Lists(ch.games, OpenGamesOf(sh.db, p))
    case _ => true
  }

  /** The connections listed by a step are the right ones, in any order. */
  ghost predicate ListsConns(sh: Shared, t: Tid, g: GameId, i: InPc, ch: Choice) {
    match Listed(sh, t, g, i)
    case Some(conns) => Lists(ch.conns, conns)
    case None => true
  }

  ghost predicate CanPass(w: World, o: OutPc, ch: Choice) {
    match o
    case Done => false
    case Lock(g, _) => g in w.locks || ch.newRef !in w.objs
    case _ => ListsGames(w.sh, o, ch)
  }

  ghost predicate CanRun(w: World, t: Tid, ch: Choice) {
    && t in w.threads
    && match w.Phase(t)
       case Out(o) => CanPass(w, o, ch)
       case Waiting(_, l, _) => l in w.objs && w.Obj(l).holder.None?
       case Inside(g, _, i) => ListsConns(w.sh, t, g, i, ch)
       case Exiting(_, _, _) => true
  }

  ghost predicate Enabled(w: World, e: Event) {
    match e
    case Go(t, ch) => CanRun(w, t, ch)
    case NewConn(c) => c !in w.sh.chan
    case NewPlayer(p, _) => p !in w.sh.used
    case NewGame(g, host, _, _) => g !in w.sh.saves && host in w.sh.db.players
    case ForceClose(c, code) => c in w.sh.chan && code in {CLOSE_NORMAL, CLOSE_AUTH_TIMEOUT}
    case Take(c) => c in w.sh.chan && w.sh.chan[c].taken < |w.sh.chan[c].log|
  }

  /** In one registry section: find or create the game's lock object, and count oneself among its users. */
  function RegisterLock(w: World, t: Tid, g: GameId, i: InPc, newRef: LockRef): World {
    var l := if g in w.locks then w.locks[g] else newRef;
    var obj := if g in w.locks then w.Obj(l) else LockObj(0, None);
    w.Moved(t, Waiting(g, l, i)).(locks := w.locks[g := l], objs := w.objs[l := obj.(refs := obj.refs + 1)])
  }

  function AcquireLock(w: World, t: Tid, g: GameId, l: LockRef, i: InPc): World {
    w.Moved(t, Inside(g, l, i)).(objs := w.objs[l := w.Obj(l).(holder := Some(t))])
  }

  function ReleaseLock(w: World, t: Tid, g: GameId, l: LockRef, o: OutPc): World {
    w.Moved(t, Exiting(g, l, o)).(objs := w.objs[l := w.Obj(l).(holder := None)])
  }

  /** In one registry section: stop being counted, and drop the table entry once nobody is. */
  function UnregisterLock(w: World, t: Tid, g: GameId, l: LockRef, o: OutPc): World {
    var obj := w.Obj(l).(refs := w.Obj(l).refs - 1);
    w.Moved(t, Out(o)).(objs := w.objs[l := obj], locks := if obj.refs == 0 then w.locks - {g} else w.locks)
  }

  /** A step outside locks. */
  function Passed(w: World, t: Tid, to: To<OutPc>): World {
    w.(sh := to.sh, threads := w.threads[t := Thread(Out(to.pc), to.serving)])
  }

  /** A step under a lock. */
  function Worked(w: World, t: Tid, g: GameId, l: LockRef, to: To<InPc>): World {
    w.(sh := to.sh, threads := w.threads[t := Thread(Inside(g, l, to.pc), to.serving)])
  }

  function RunThread(w: World, t: Tid, ch: Choice): World {
    match w.Phase(t)
    case Out(o) =>
      (match o
       case Lock(g, i) => RegisterLock(w, t, g, i, ch.newRef)
       case _ => Passed(w, t, Free(w.sh, t, w.Served(t), o, ch)))
    case Waiting(g, l, i) => AcquireLock(w, t, g, l, i)
    case Inside(g, l, i) =>
      (match i
       case LeaveLock(o) => ReleaseLock(w, t, g, l, o)
       case _ => Worked(w, t, g, l, Body(w.sh, t, g, w.Served(t), i, ch)))
    case Exiting(g, l, o) => UnregisterLock(w, t, g, l, o)
  }

  /** What the rest of the program does: connections, players and games appear, writers take messages, timers close. */
  function Environment(sh: Shared, e: Event): Shared {
    match e
    case Go(_, _) => sh
    case NewConn(c) => sh.(reg := AddConn(sh.reg, c), chan := sh.chan[c := Chan(None, [], 0, [])])
    case NewPlayer(p, row) => sh.(db := sh.db.(players := sh.db.players[p := row]), used := sh.used + {p})
    case NewGame(g, host, digest, now) =>
      var r := CreateGame(sh.db, g, host, digest, now);
      if r.Failure? then sh
      else sh.(db := r.value, saves := sh.saves[g := History([], [NewState()])]).SeatTaken(host)
    case ForceClose(c, code) => sh.Closed(c, code)
    case Take(c) => if c in sh.chan then sh.(chan := sh.chan[c := sh.chan[c].(taken := sh.chan[c].taken + 1)]) else sh
  }

  function Step(w: World, e: Event): World {
    match e
    case Go(t, ch) => RunThread(w, t, ch)
    case NewConn(c) =>
      w.(sh := Environment(w.sh, e), threads := w.threads[Reader(c) := Thread(Out(Idle), Serving(0, false))])
    case _ => w.(sh := Environment(w.sh, e))
  }

  /** The server starts with whatever the store holds, and without connections. */
  ghost predicate Init(w: World) {
    && w.locks == map[] && w.objs == map[]
    && w.threads == map[Sweeper := Thread(Out(Idle), Serving(0, false))]
    && w.sh.db.ForeignKeys() && w.sh.db.players.Keys <= w.sh.used
    && w.sh.reg == Reg({}, map[], map[], map[]) && w.sh.chan == map[]
    && w.sh.saves == (map g | g in w.sh.db.games :: History([], [w.sh.db.games[g].state]))
    && w.sh.stale == {} && w.sh.seatings == map[]
  }

  /** A stretch of a run: each world follows from the one before by an enabled event. */
  ghost predicate Follows(run: seq<World>, events: seq<Event>) {
    && |run| == |events| + 1
    && forall k :: 0 <= k < |events| ==> Enabled(run[k], events[k]) && run[k + 1] == Step(run[k], events[k])
  }

  ghost predicate Behaviour(run: seq<World>, events: seq<Event>) {
    Follows(run, events) && Init(run[0])
  }

  /** World w comes some number of steps after world v, all of which are good. */
  ghost predicate LeadsBy(v: World, w: World, good: (World, Event) -> bool) {
    exists run, events :: Follows(run, events) && run[0] == v && run[|events|] == w
      && forall k :: 0 <= k < |events| ==> good(run[k], events[k])
  }

  ghost predicate Any(w: World, e: Event) {
    true
  }

  ghost predicate Leads(v: World, w: World) {
    LeadsBy(v, w, Any)
  }

  ghost predicate Reached(w: World) {
    exists v :: Init(v) && Leads(v, w)
  }
}
