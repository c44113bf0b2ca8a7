/** The pure game rules: round resolution, status transitions, move visibility. */
module Rules {
  import opened Wrappers

  datatype Move = Rock | Paper | Scissors | Pending

  datatype Status = WaitingForGuest | Active | Complete | HostIssuedRematch | GuestIssuedRematch | Closed

  datatype Outcome = WaitingForMoves | Draw | HostWon | GuestWon

  datatype Seat = Host | Guest {
    function Other(): Seat {
      if this == Host then Guest else Host
    }
  }

  datatype RuleError = InvalidMove | InvalidState | AlreadyLockedIn | RematchAlreadyIssued | GameClosed

  datatype State = State(
    status: Status, outcome: Outcome,
    hostMove: Move, guestMove: Move,
    hostWins: nat, guestWins: nat, draws: nat)
  {
    function MoveOf(seat: Seat): Move {
      if seat == Host then hostMove else guestMove
    }

    /** The seat that issued a pending rematch, if any. */
    function RematchIssuer(): Option<Seat> {
      match status
      case HostIssuedRematch => Some(Host)
      case GuestIssuedRematch => Some(Guest)
      case _ => None
    }
  }

  function NewState(): State {
    State(WaitingForGuest, WaitingForMoves, Pending, Pending, 0, 0, 0)
  }

  /** Whether throw `a` defeats throw `b`. */
  predicate Beats(a: Move, b: Move) {
    (a == Rock && b == Scissors) || (a == Scissors && b == Paper) || (a == Paper && b == Rock)
  }

  function Resolve(host: Move, guest: Move): Outcome {
    if host == guest then Draw else if Beats(host, guest) then HostWon else GuestWon
  }

  function IssuedBy(seat: Seat): Status {
    if seat == Host then HostIssuedRematch else GuestIssuedRematch
  }

  function JoinGame(s: State): Result<State, RuleError> {
    if s.status != WaitingForGuest then Failure(InvalidState) else Success(s.(status := Active))
  }

  /** Locks in a seat's move, and resolves the round once both moves are in. */
  function PlayMove(s: State, seat: Seat, m: Move): Result<State, RuleError> {
    if m == Pending then Failure(InvalidMove)
    else if s.status != Active then Failure(InvalidState)
    else if s.MoveOf(seat) != Pending then Failure(AlreadyLockedIn)
    else
      var locked := if seat == Host then s.(hostMove := m) else s.(guestMove := m);
      if locked.hostMove == Pending || locked.guestMove == Pending then Success(locked)
      else
        var outcome := Resolve(locked.hostMove, locked.guestMove);
        var counted :=
          match outcome
          case HostWon => locked.(hostWins := locked.hostWins + 1)
          case GuestWon => locked.(guestWins := locked.guestWins + 1)
          case _ => locked.(draws := locked.draws + 1);
        Success(counted.(outcome := outcome, status := Complete))
  }

  /** Issues a rematch from a completed round, or accepts the opponent's. */
  function Rematch(s: State, seat: Seat): Result<State, RuleError> {
    if s.status == Complete then Success(s.(status := IssuedBy(seat)))
    else
      match s.RematchIssuer()
      case None => Failure(InvalidState)
      case Some(issuer) =>
        if issuer == seat then Failure(RematchAlreadyIssued)
        else Success(s.(status := Active, outcome := WaitingForMoves, hostMove := Pending, guestMove := Pending))
  }

  function DeclineRematch(s: State, seat: Seat): Result<State, RuleError> {
    match s.RematchIssuer()
    case None => Failure(InvalidState)
    case Some(issuer) => if issuer == seat then Failure(InvalidState) else Success(s.(status := Complete))
  }

  /** Leaving and player expiry both close the game; CLOSED is terminal. */
  function CloseGame(s: State): Result<State, RuleError> {
    if s.status == Closed then Failure(GameClosed) else Success(s.(status := Closed))
  }

  /** The move of `owner` as `viewer` may see it: hidden from the opponent while ACTIVE. */
  function VisibleMove(s: State, viewer: Seat, owner: Seat): Option<Move> {
    var stored := s.MoveOf(owner);
    if stored == Pending then None
    else if viewer != owner && s.status == Active then None
    else Some(stored)
  }

  /** One attempted change to a game. */
  datatype Attempt =
    | Join
    | Throw(seat: Seat, move: Move)
    | AskRematch(seat: Seat)
    | Decline(seat: Seat)
    | Leave

  function Apply(s: State, a: Attempt): Result<State, RuleError> {
    match a
    case Join => JoinGame(s)
    case Throw(seat, m) => PlayMove(s, seat, m)
    case AskRematch(seat) => Rematch(s, seat)
    case Decline(seat) => DeclineRematch(s, seat)
    case Leave => CloseGame(s)
  }

  /** A rejected attempt leaves the game as it was. */
  function After(s: State, a: Attempt): State {
    var r := Apply(s, a);
    if r.Success? then r.value else s
  }

  /** The game after a run of attempts, the last one applied last. */
  function Run(s: State, run: seq<Attempt>): State {
    if run == [] then s else After(Run(s, run[..|run| - 1]), run[|run| - 1])
  }
}
