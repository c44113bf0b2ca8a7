/**
 * The rules a second time, as an account of what has happened in a game: who has come, what has been thrown in each
 * round, who asks for a rematch. The states, statuses and refusals of the rules are what the account says.
 */
module RulesHistory {
  import opened Wrappers
  import opened Rules
  import opened RulesRuns

  /** How far throws are around the circle in which each defeats the one before it. */
  function Rank(m: Move): int {
    match m
    case Rock => 0
    case Paper => 1
    case Scissors => 2
    case Pending => 3
  }

  /** The seat whose throw comes next after the other's in the circle has won. */
  function Winner(r: Round): Option<Seat> {
    if (Rank(r.host) - Rank(r.guest)) % 3 == 1 then Some(Host)
    else if (Rank(r.guest) - Rank(r.host)) % 3 == 1 then Some(Guest)
    else None
  }

  /**
   * What has happened: whether a guest has joined and somebody has left, the throws of the current round, the rounds
   * before it, and whose request for a rematch stands. The current round is resolved once both have thrown.
   */
  datatype Account = Account(
    joined: bool, left: bool, host: Option<Move>, guest: Option<Move>, before: seq<Round>, asker: Option<Seat>)
  {
    function Thrown(seat: Seat): Option<Move> {
      if seat == Host then host else guest
    }

    predicate Resolved() {
      host.Some? && guest.Some?
    }

    /** The rounds resolved so far. */
    function Rounds(): seq<Round> {
      match (host, guest)
      case (Some(h), Some(g)) => before + [Round(h, g)]
      case _ => before
    }

    /** Why an attempt is refused, if it is. */
    function Refusal(a: Attempt): Option<RuleError> {
      match a
      case Join => if joined || left then Some(InvalidState) else None
      case Throw(seat, m) =>
        if m == Pending then Some(InvalidMove)
        else if !joined || left || Resolved() then Some(InvalidState)
        else if Thrown(seat).Some? then Some(AlreadyLockedIn)
        else None
      case AskRematch(seat) =>
        if !Resolved() || left then Some(InvalidState)
        else if asker == Some(seat) then Some(RematchAlreadyIssued)
        else None
      case Decline(seat) => if Resolved() && !left && asker == Some(seat.Other()) then None else Some(InvalidState)
      case Leave => if left then Some(GameClosed) else None
    }

    /** The account of an attempt that is not refused. */
    function With(a: Attempt): Account {
      match a
      case Join => this.(joined := true)
      case Throw(seat, m) => if seat == Host then this.(host := Some(m)) else this.(guest := Some(m))
      case AskRematch(seat) =>
        if asker.None? then this.(asker := Some(seat)) else Account(joined, left, None, None, Rounds(), None)
      case Decline(_) => this.(asker := None)
      case Leave => this.(left := true)
    }

    function After(a: Attempt): Account {
      if Refusal(a).Some? then this else With(a)
    }
  }

  const BEGINNING: Account := Account(false, false, None, None, [], None)

  /** The account of a run. */
  function Told(run: seq<Attempt>): Account {
    if run == [] then BEGINNING else Told(run[..|run| - 1]).After(run[|run| - 1])
  }

  // ----- The state that an account tells of -----

  function StatusOf(acc: Account): Status {
    if acc.left then Closed
    else if !acc.joined then WaitingForGuest
    else if !acc.Resolved() then Active
    else
      match acc.asker
      case None => Complete
      case Some(Host) => HostIssuedRematch
      case Some(Guest) => GuestIssuedRematch
  }

  function OutcomeOf(acc: Account): Outcome {
    match (acc.host, acc.guest)
    case (Some(h), Some(g)) =>
      (match Winner(Round(h, g))
       case None => Draw
       case Some(Host) => HostWon
       case Some(Guest) => GuestWon)
    case _ => WaitingForMoves
  }

  function MoveShown(m: Option<Move>): Move {
    match m
    case Some(move) => move
    case None => Pending
  }

  /** How many of the rounds a seat has won, or nobody has. */
  function Wins(rounds: seq<Round>, winner: Option<Seat>): nat {
    if rounds == [] then 0
    else Wins(rounds[..|rounds| - 1], winner) + (if Winner(rounds[|rounds| - 1]) == winner then 1 else 0)
  }

  function Shown(acc: Account): State {
    State(StatusOf(acc), OutcomeOf(acc), MoveShown(acc.host), MoveShown(acc.guest),
          Wins(acc.Rounds(), Some(Host)), Wins(acc.Rounds(), Some(Guest)), Wins(acc.Rounds(), None))
  }

  /** Nobody throws before the guest has come, and rematches are asked for once the round is resolved. */
  ghost predicate Sound(acc: Account) {
    && (acc.host != Some(Pending) && acc.guest != Some(Pending))
    && (!acc.joined ==> acc.host.None? && acc.guest.None? && acc.before == [])
    && (acc.asker.Some? ==> acc.Resolved())
  }

  lemma SoundStays(acc: Account, a: Attempt)
    requires Sound(acc)
    ensures Sound(acc.After(a))
  {
  }

  lemma WinsPush(rounds: seq<Round>, r: Round, winner: Option<Seat>)
    ensures Wins(rounds + [r], winner) == Wins(rounds, winner) + (if Winner(r) == winner then 1 else 0)
  {
    assert (rounds + [r])[..|rounds|] == rounds;
  }

  /** The rules name the winner of a round. */
  lemma WinnerIs(host: Move, guest: Move)
    requires host != Pending && guest != Pending
    ensures Resolve(host, guest) == match Winner(Round(host, guest))
      case None => Draw
      case Some(Host) => HostWon
      case Some(Guest) => GuestWon
  {
  }

  /** The rules refuse exactly what the account refuses, for the same reason, and lead where it leads. */
  lemma StepTold(acc: Account, a: Attempt)
    requires Sound(acc)
    ensures match acc.Refusal(a)
      case Some(e) => Apply(Shown(acc), a) == Failure(e)
      case None => Apply(Shown(acc), a) == Success(Shown(acc.With(a)))
  {
    match a
    case Throw(seat, m) =>
      hide Wins, Winner;
      if acc.Refusal(a).None? && acc.Thrown(seat.Other()).Some? {
        var r := if seat == Host then Round(m, acc.guest.value) else Round(acc.host.value, m);
        WinnerIs(r.host, r.guest);
        WinsPush(acc.before, r, Some(Host));
        WinsPush(acc.before, r, Some(Guest));
        WinsPush(acc.before, r, None);
      }
    case _ => hide Wins, Winner;
  }

  /** A game is in the state that the account of its attempts tells of, whatever the run. */
  lemma {:induction false} RunsAreTold(run: seq<Attempt>)
    ensures Sound(Told(run)) && Run(NewState(), run) == Shown(Told(run))
  {
    if run != [] {
      hide Apply, Shown, Account.Refusal, Account.With, Sound;
      var before, last := run[..|run| - 1], run[|run| - 1];
      RunsAreTold(before);
      SoundStays(Told(before), last);
      StepTold(Told(before), last);
    }
  }

  /** Every attempt after any run is refused or accepted as the account of the run says. */
  lemma AttemptsAreTold(run: seq<Attempt>, a: Attempt)
    ensures match Told(run).Refusal(a)
      case Some(e) => Apply(Run(NewState(), run), a) == Failure(e)
      case None => Apply(Run(NewState(), run), a).Success?
  {
    hide *;
    RunsAreTold(run);
    StepTold(Told(run), a);
  }

  // ----- Rematches -----

  predicate Accepted(run: seq<Attempt>, k: nat)
    requires k < |run|
  {
    Apply(Run(NewState(), run[..k]), run[k]).Success?
  }

  /** Attempt k of the run asked for a rematch, and it has been neither accepted nor declined since. */
  ghost predicate Asked(run: seq<Attempt>, k: nat, seat: Seat) {
    && k < |run| && run[k] == AskRematch(seat) && Accepted(run, k) && !Restarts(Run(NewState(), run[..k]), run[k])
    && forall j :: k < j < |run| && Accepted(run, j) ==> !run[j].AskRematch? && !run[j].Decline?
  }

  /** A seat's request for a rematch stands. */
  ghost predicate Asks(run: seq<Attempt>, seat: Seat) {
    exists k: nat :: Asked(run, k, seat)
  }

  /** Only accepted requests and refusals of a rematch matter, and the last of them decides. */
  lemma AsksNext(before: seq<Attempt>, last: Attempt, seat: Seat)
    ensures
      var s := Run(NewState(), before);
      Asks(before + [last], seat) <==>
        if Apply(s, last).Success? && (last.AskRematch? || last.Decline?)
        then last == AskRematch(seat) && !Restarts(s, last)
        else Asks(before, seat)
  {
    hide Apply, Run, Restarts;
    var run, n := before + [last], |before|;
    assert run[..n] == before && run[n] == last;
    assert forall k: nat :: k < n ==> before[..k] == run[..k] && before[k] == run[k];
    assert forall k: nat :: k < n ==> (Accepted(run, k) <==> Accepted(before, k));
    assert Accepted(run, n) <==> Apply(Run(NewState(), before), last).Success?;
    if Asks(run, seat) {
      var k: nat :| Asked(run, k, seat);
      assert k < n ==> Asked(before, k, seat);
    }
    if Asks(before, seat) && !(Accepted(run, n) && (last.AskRematch? || last.Decline?)) {
      var k: nat :| Asked(before, k, seat);
      assert Asked(run, k, seat);
    }
    if Accepted(run, n) && last == AskRematch(seat) && !Restarts(Run(NewState(), before), last) {
      assert Asked(run, n, seat);
    }
  }

  lemma RestartsTold(acc: Account, seat: Seat)
    requires Sound(acc)
    ensures Restarts(Shown(acc), AskRematch(seat)) <==> acc.Refusal(AskRematch(seat)).None? && acc.asker.Some?
  {
    hide Wins, Winner;
    StepTold(acc, AskRematch(seat));
  }

  lemma {:induction false} AskerIs(run: seq<Attempt>, seat: Seat)
    ensures Told(run).asker == Some(seat) <==> Asks(run, seat)
  {
    if run != [] {
      hide Apply, Run, Shown, Sound, Asks, Restarts;
      var before, last := run[..|run| - 1], run[|run| - 1];
      assert run == before + [last];
      AskerIs(before, seat);
      AsksNext(before, last, seat);
      RunsAreTold(before);
      StepTold(Told(before), last);
      match last
      case AskRematch(asking) => RestartsTold(Told(before), asking);
      case _ =>
    }
  }

  /**
   * A new round needs both players: a request restarts the game exactly if the other seat's request stands. The same
   * seat's second request is refused as already issued, and only the other seat can decline.
   */
  lemma RematchNeedsBoth(run: seq<Attempt>, seat: Seat)
    ensures
      var s := Run(NewState(), run);
      var open := s.status != Closed && s.outcome != WaitingForMoves;
      && (Restarts(s, AskRematch(seat)) <==> open && Asks(run, seat.Other()))
      && (Apply(s, AskRematch(seat)) == Failure(RematchAlreadyIssued) <==> open && Asks(run, seat))
      && (Apply(s, AskRematch(seat)) == Failure(InvalidState) <==> !open)
      && (Apply(s, Decline(seat)).Success? <==> open && Asks(run, seat.Other()))
      && !(Asks(run, seat) && Asks(run, seat.Other()))
  {
    hide Apply, Run, Asks, Restarts, Wins, Winner;
    RunsAreTold(run);
    AskerIs(run, seat);
    AskerIs(run, seat.Other());
    StepTold(Told(run), AskRematch(seat));
    StepTold(Told(run), Decline(seat));
    RestartsTold(Told(run), seat);
  }
}
