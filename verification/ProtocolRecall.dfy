/**
 * What the goroutines are doing and what they have come upon in doing it: along a run, each goroutine has a task, which
 * is the last request or job it began, and findings, which are what its own steps since then met in the store and the
 * registry. Tasks and findings are read off the run; the goroutines do not keep them.
 */
module ProtocolRecall {
  import opened Wrappers
  import opened Timestamps
  import opened Rules
  import opened Store
  import opened Registry
  import opened Protocol
  import opened ProtocolReached
  import opened ProtocolDoes
  import opened ProtocolLocks

  datatype Task =
    | Asked(RequestId, Action)
    | Malformed
    | Gone
    | Expiring(PlayerId, Time)
    | Ending(GameId, Time)

  function TaskOf(t: Tid, ch: Choice): Task {
    match t
    case Reader(_) =>
      (match ch.frame
       case Request(rid, a) => Asked(rid, a)
       case MalformedFrame(_) => Malformed
       case SocketGone => Gone)
    case Sweeper =>
      match ch.job
      case ExpirePlayer(p, cutoff) => Expiring(p, cutoff)
      case ExpireGame(g, cutoff) => Ending(g, cutoff)
  }

  // ----- What requests deserve -----

  /** Player p is stored with that secret. */
  predicate HasSecret(sh: Shared, p: PlayerId, digest: Digest) {
    match Get(sh.db.players, p)
    case Some(row) => row.digest == digest
    case None => false
  }

  /** Game g is stored with that secret. */
  predicate Opens(sh: Shared, g: GameId, digest: Digest) {
    match Get(sh.db.games, g)
    case Some(row) => row.digest == digest
    case None => false
  }

  /** The seat that the connection's player has in a game, or would get by joining it. */
  function SeatFor(row: Game, player: Option<PlayerId>): Option<Seat> {
    if row.host.Some? && row.host == player then Some(Host)
    else if row.guest.None? || row.guest == player then Some(Guest)
    else None
  }

  /** The player has a seat in the game already. */
  predicate PlaysIn(row: Game, player: Option<PlayerId>) {
    player.Some? && (row.host == player || row.guest == player)
  }

  /** Why a request to connect is refused by the row of the game. */
  predicate KeepsOut(row: Game, player: Option<PlayerId>, code: Code) {
    match code
    case GameFull => row.state.status != Status.Closed && !PlaysIn(row, player) && row.guest.Some?
    case Broken(GameClosed) => row.state.status == Status.Closed
    case Broken(InvalidState) =>
      && row.state.status != Status.Closed && row.state.status != WaitingForGuest
      && !PlaysIn(row, player) && row.guest.None?
    case _ => false
  }

  predicate LetsIn(row: Game, player: Option<PlayerId>) {
    && row.state.status != Status.Closed
    && (PlaysIn(row, player) || (row.guest.None? && row.state.status == WaitingForGuest))
  }

  /** The rules refuse a game action of connection c, on the stored state of its game. */
  predicate Breaks(sh: Shared, c: ConnId, a: Action, e: RuleError) {
    match sh.Place(c)
    case At(g, seat) =>
      (match sh.State(g) case Some(s) => Apply(s, AttemptOf(a, seat)) == Failure(e) case None => false)
    case Nowhere => false
  }

  predicate Allows(sh: Shared, c: ConnId, a: Action) {
    match sh.Place(c)
    case At(g, seat) =>
      (match sh.State(g) case Some(s) => Apply(s, AttemptOf(a, seat)).Success? case None => false)
    case Nowhere => false
  }

  /** The game that an action of connection c is about. */
  function GameFor(sh: Shared, c: ConnId, a: Action): Option<GameId> {
    match a
    case Connect(g, _) => Some(g)
    case _ => (match sh.Place(c) case At(g, _) => Some(g) case Nowhere => None)
  }

  /** A player has been deleted: the connection's own, or one of its game's. */
  predicate Bereft(sh: Shared, c: ConnId, a: Action) {
    || (match sh.PlayerOn(c) case Some(p) => p !in sh.db.players case None => false)
    || (match GameFor(sh, c, a)
        case Some(g) => (match Get(sh.db.games, g) case Some(row) => row.host.None?
            || row.guest.None? case None => false)
        case None => false)
  }

  predicate NoMove(a: Action) {
    match a
    case Play(m) => m == None || m == Some(Pending)
    case _ => false
  }

  /** The request deserves to be refused with the code; `fail` if the store does not work. */
  predicate Deserves(sh: Shared, c: ConnId, a: Action, fail: bool, code: Code) {
    match code
    case UnknownAction => a == Unknown
    case BadRequest => a == BadAuthenticate || a == BadConnect
    case NotAuthenticated => a.NeedsPlayer() && sh.PlayerOn(c) == None
    case AlreadyAuthenticated => a.Authenticate? && sh.PlayerOn(c) != None
    case InvalidCredentials => !fail
        && (match a case Authenticate(p, digest) => !HasSecret(sh, p, digest) case _ => false)
    case InvalidGameCredentials => !fail && (match a case Connect(g, digest) => !Opens(sh, g, digest) case _ => false)
    case NotInGame => a.NeedsGame() && sh.Place(c) == Nowhere
    case Internal => fail || Bereft(sh, c, a)
    case GameFull => !fail && Excludes(sh, c, a, GameFull)
    case Broken(e) =>
      || (e == InvalidMove && NoMove(a))
      || (!fail && Excludes(sh, c, a, code))
      || (!fail && a.NeedsGame() && Breaks(sh, c, a, e))
  }

  predicate Excludes(sh: Shared, c: ConnId, a: Action, code: Code) {
    match a
    case Connect(g, digest) =>
      (match Get(sh.db.games, g)
       case Some(row) => row.digest == digest && KeepsOut(row, sh.PlayerOn(c), code)
       case None => false)
    case _ => false
  }

  /** The request may be granted. */
  predicate Grants(sh: Shared, c: ConnId, a: Action, fail: bool) {
    && !fail
    && match a
       case Authenticate(p, digest) => HasSecret(sh, p, digest)
       case Connect(g, digest) =>
         (match Get(sh.db.games, g)
          case Some(row) => row.digest == digest && LetsIn(row, sh.PlayerOn(c))
          case None => false)
       case _ => a.NeedsGame() && Allows(sh, c, a)
  }

  // ----- Findings -----

  datatype Finding =
    | Refusing(Code)
    | Granting
    | Inactive
    | Unregistered
    | Registered(ConnId)
    | Attached(ConnId)
    | Sits(GameId, Seat)
    | Leaves(ConnId, GameId, Seat)
    | Saves(GameId, Commit)
    | Pends(GameId, Seat)
    | Comes(GameId)
    | Failing
    | Spared
    | Removed

  /** The player that a task is about, as far as its registered connection goes. */
  function PlayerFor(task: Task): Option<PlayerId> {
    match task
    case Asked(_, Authenticate(p, _)) => Some(p)
    case Expiring(p, _) => Some(p)
    case _ => None
  }

  /** The task takes the goroutine's own connection out of its game. */
  predicate Leaving(task: Task) {
    match task
    case Asked(_, a) => !a.Authenticate?
    case Gone => true
    case _ => false
  }

  predicate FindsSeat(sh: Shared, t: Tid, task: Task, g: GameId, seat: Seat) {
    match Get(sh.db.games, g)
    case Some(row) =>
      (match task
       case Asked(_, Connect(_, _)) => SeatFor(row, sh.PlayerOn(t.Mine())) == Some(seat)
       case Asked(_, _) => sh.Place(t.Mine()) == At(g, seat)
       case Expiring(p, _) => row.SeatOf(p) == Some(seat)
       case _ => false)
    case None => false
  }

  /** The stored game was last active before a time. */
  predicate InactiveGame(sh: Shared, g: GameId, cutoff: Time) {
    match Get(sh.db.games, g)
    case Some(row) => Before(row.lastActive, cutoff)
    case None => false
  }

  predicate InactivePlayer(sh: Shared, p: PlayerId, cutoff: Time) {
    match Get(sh.db.players, p)
    case Some(row) => Before(row.lastActive, cutoff)
    case None => false
  }

  /** The job looks its player up. */
  predicate LooksUp(phase: Phase) {
    phase.Out? && phase.Going().ExpLoad?
  }

  /** The store fails, or refuses a save. */
  predicate Hampers(w: World, t: Tid, ch: Choice) {
    ch.fail || match Does(w, Go(t, ch))
      case Save(g, row, actor, now, _, _) => SaveGame(w.sh.db, g, row, actor, now).Failure?
      case _ => false
  }

  /** What a step of goroutine t meets, in world w, in doing its task. */
  ghost predicate Finds(w: World, t: Tid, ch: Choice, task: Task, f: Finding) {
    match f
    case Refusing(code) => (match task case Asked(_, a) => Deserves(w.sh, t.Mine(), a, ch.fail, code) case _ => false)
    case Granting => (match task case Asked(_, a) => Grants(w.sh, t.Mine(), a, ch.fail) case _ => false)
    case Inactive => (match task case Expiring(p, cutoff) => !ch.fail
        && InactivePlayer(w.sh, p, cutoff) case _ => false)
    case Unregistered => (match PlayerFor(task) case Some(p) => p !in w.sh.reg.players case None => false)
    case Registered(d) => (match PlayerFor(task) case Some(p) => Get(w.sh.reg.players, p) == Some(d) case None => false)
    case Attached(d) =>
      (match task case Ending(g, _) => IsInside(w, t, g) && d in w.sh.reg.Attached(g) case _ => false)
    case Sits(g, seat) => FindsSeat(w.sh, t, task, g, seat)
    case Leaves(d, g, seat) => w.sh.Place(d) == At(g, seat) && (Leaving(task) ==> d == t.Mine())
    case Saves(g, commit) =>
      (match Does(w, Go(t, ch))
       case Save(h, row, actor, now, made, _) =>
         h == g && made == commit && SaveGame(w.sh.db, g, row, actor, now).Success?
       case _ => false)
    case Pends(g, seat) =>
      (match Does(w, Go(t, ch))
       case Save(h, row, actor, now, _, _) =>
         && h == g && row.state.RematchIssuer() == Some(seat)
         && SaveGame(w.sh.db, g, row, actor, now).Success?
       case _ => false)
    case Comes(g) =>
      (match Does(w, Go(t, ch)) case Sit(c, h, _) => h == g && c == t.Mine() && !w.sh.Place(c).In(g) case _ => false)
    case Failing => Hampers(w, t, ch)
    case Spared =>
      (match task
       case Expiring(p, cutoff) => LooksUp(w.Phase(t)) && !InactivePlayer(w.sh, p, cutoff)
       case Ending(g, cutoff) => IsInside(w, t, g) && !InactiveGame(w.sh, g, cutoff)
       case _ => false)
    case Removed =>
      (match task
       case Expiring(p, _) => Does(w, Go(t, ch)) == Remove(p)
       case Ending(g, _) => Does(w, Go(t, ch)) == Discard(g)
       case _ => false)
  }

  // ----- Runs -----

  /** The first n steps of a run. */
  ghost predicate Runs(run: nat -> World, events: nat -> Event, n: nat) {
    Init(run(0)) && forall k: nat :: k < n ==> Enabled(run(k), events(k)) && run(k + 1) == Step(run(k), events(k))
  }

  datatype Memory = Memory(task: Option<Task>, found: iset<Finding>)

  ghost function FindingsOf(w: World, t: Tid, ch: Choice, task: Option<Task>): iset<Finding> {
    match task
    case Some(job) => iset f: Finding | Finds(w, t, ch, job, f)
    case None => iset{}
  }

  ghost function Remember(m: Memory, w: World, e: Event, t: Tid): Memory {
    match e
    case Go(s, ch) =>
      if s != t then m
      else if w.Phase(t) == Out(Idle) then Memory(Some(TaskOf(t, ch)), iset{})
      else Memory(m.task, m.found + FindingsOf(w, t, ch, m.task))
    case _ => m
  }

  /** What goroutine t is doing after k steps of a run, and what it has found since it began that. */
  ghost function Recall(run: nat -> World, events: nat -> Event, k: nat, t: Tid): Memory {
    if k == 0 then Memory(None, iset{})
    else Remember(Recall(run, events, k - 1, t), run(k - 1), events(k - 1), t)
  }

  predicate Begins(w: World, e: Event, t: Tid) {
    match e
    case Go(s, _) => s == t && w.Phase(t) == Out(Idle)
    case _ => false
  }

  /** The step is one of goroutine t's in doing its task, and meets something. */
  ghost predicate StepFinds(w: World, e: Event, t: Tid, task: Task, f: Finding) {
    match e
    case Go(s, ch) => s == t && w.Phase(t) != Out(Idle) && Finds(w, t, ch, task, f)
    case _ => false
  }

  /** Whether the store fails in a step. */
  predicate Fails(e: Event) {
    match e
    case Go(_, ch) => ch.fail
    case _ => false
  }

  /** Step j found something for the task that goroutine t is still doing after k steps. */
  ghost predicate FoundAt(run: nat -> World, events: nat -> Event, j: nat, k: nat, t: Tid, task: Task, f: Finding) {
    && j < k && StepFinds(run(j), events(j), t, task, f)
    && Recall(run, events, j, t).task == Some(task)
    && forall i: nat :: j <= i < k ==> !Begins(run(i), events(i), t)
  }

  /** Findings were found by an earlier step of the same task. */
  lemma {:induction false} FoundEarlier(run: nat -> World, events: nat -> Event, k: nat, t: Tid, task: Task, f: Finding)
    returns (j: nat)
    requires Recall(run, events, k, t).task == Some(task) && f in Recall(run, events, k, t).found
    ensures FoundAt(run, events, j, k, t, task, f)
  {
    hide Finds, TaskOf;
    var m := Recall(run, events, k - 1, t);
    match events(k - 1) {
      case Go(s, ch) =>
        if s == t && f in FindingsOf(run(k - 1), t, ch, m.task) {
          j := k - 1;
          return;
        }
      case _ =>
    }
    j := FoundEarlier(run, events, k - 1, t, task, f);
  }

  lemma {:induction false} RunsReached(run: nat -> World, events: nat -> Event, n: nat, k: nat)
    requires Runs(run, events, n) && k <= n
    ensures Reached(run(k))
  {
    hide Init, Enabled, Step, Reached;
    if k == 0 {
      InitReached(run(0));
    } else {
      RunsReached(run, events, n, k - 1);
      NextReached(run(k - 1), events(k - 1));
    }
  }
}
