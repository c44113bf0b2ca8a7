/** What holds of a game after any run of attempts, accepted or rejected, from its creation. */
module RulesRuns {
  import opened Wrappers
  import opened Rules

  /** Both throws of a resolved round. */
  datatype Round = Round(host: Move, guest: Move)

  /** The attempt is the second throw of a round. */
  predicate Resolves(s: State, a: Attempt) {
    a.Throw? && Apply(s, a).Success? && After(s, a).status == Complete
  }

  /** The attempt accepts the opponent's rematch, which starts a new round. */
  predicate Restarts(s: State, a: Attempt) {
    a.AskRematch? && Apply(s, a).Success? && After(s, a).status == Active
  }

  /** The rounds resolved by a run, oldest first. */
  ghost function Rounds(run: seq<Attempt>): seq<Round> {
    if run == [] then []
    else
      var last, before := run[|run| - 1], Run(NewState(), run[..|run| - 1]);
      var after := After(before, last);
      Rounds(run[..|run| - 1]) + (if Resolves(before, last) then [Round(after.hostMove, after.guestMove)] else [])
  }

  /** How many rematches were accepted in a run. */
  ghost function AcceptedRematches(run: seq<Attempt>): nat {
    if run == [] then 0
    else
      AcceptedRematches(run[..|run| - 1])
      + (if Restarts(Run(NewState(), run[..|run| - 1]), run[|run| - 1]) then 1 else 0)
  }

  /** How many of the rounds ended with an outcome. */
  ghost function Tally(rounds: seq<Round>, outcome: Outcome): nat {
    if rounds == [] then 0
    else
      var last := rounds[|rounds| - 1];
      Tally(rounds[..|rounds| - 1], outcome) + (if Resolve(last.host, last.guest) == outcome then 1 else 0)
  }

  ghost predicate RoundOpen(s: State) {
    (s.hostMove == Pending || s.guestMove == Pending) && s.outcome == WaitingForMoves
  }

  ghost predicate RoundResolved(s: State) {
    s.hostMove != Pending && s.guestMove != Pending && s.outcome == Resolve(s.hostMove, s.guestMove)
  }

  /** What each status says about the stored throws and the stored outcome. */
  ghost predicate Consistent(s: State) {
    match s.status
    case WaitingForGuest => s == NewState()
    case Active => RoundOpen(s)
    case Closed => RoundOpen(s) || RoundResolved(s)
    case _ => RoundResolved(s)
  }

  lemma TallyPush(rounds: seq<Round>, r: Round, outcome: Outcome)
    ensures Tally(rounds + [r], outcome) == Tally(rounds, outcome) + (if Resolve(r.host, r.guest) == outcome then 1
        else 0)
  {
    assert (rounds + [r])[..|rounds|] == rounds;
  }

  lemma TallyTotal(rounds: seq<Round>)
    ensures Tally(rounds, HostWon) + Tally(rounds, GuestWon) + Tally(rounds, Draw) == |rounds|
  {
  }

  /** Exactly the second throw of a round counts, by its outcome; exactly an accepted rematch clears the outcome. */
  lemma AttemptEffect(s: State, a: Attempt)
    requires Consistent(s)
    ensures
      var s' := After(s, a);
      && Consistent(s')
      && (if Resolves(s, a) then
            && s.outcome == WaitingForMoves && s'.outcome == Resolve(s'.hostMove, s'.guestMove) != WaitingForMoves
            && s'.hostWins == s.hostWins + (if s'.outcome == HostWon then 1 else 0)
            && s'.guestWins == s.guestWins + (if s'.outcome == GuestWon then 1 else 0)
            && s'.draws == s.draws + (if s'.outcome == Draw then 1 else 0)
          else
            && s'.hostWins == s.hostWins && s'.guestWins == s.guestWins && s'.draws == s.draws
            && (if Restarts(s, a) then s.outcome != WaitingForMoves && s'.outcome == WaitingForMoves
                else s'.outcome == s.outcome
                     && (s.outcome != WaitingForMoves ==> s'.hostMove == s.hostMove && s'.guestMove == s.guestMove)))
      && !(Resolves(s, a) && Restarts(s, a))
  {
  }

  /** The counters are exactly the history of resolved rounds, whatever the run, also after CLOSED. */
  lemma {:induction false} Ledger(run: seq<Attempt>)
    ensures
      var s, rounds := Run(NewState(), run), Rounds(run);
      && Consistent(s)
      && s.hostWins == Tally(rounds, HostWon)
      && s.guestWins == Tally(rounds, GuestWon)
      && s.draws == Tally(rounds, Draw)
      && |rounds| == AcceptedRematches(run) + (if s.outcome == WaitingForMoves then 0 else 1)
      && (s.outcome != WaitingForMoves ==> rounds[|rounds| - 1] == Round(s.hostMove, s.guestMove))
  {
    if run != [] {
      hide After, Resolves, Restarts, Consistent, Resolve;
      Ledger(run[..|run| - 1]);
      var last, before, rounds := run[|run| - 1], Run(NewState(), run[..|run| - 1]), Rounds(run[..|run| - 1]);
      var after := After(before, last);
      AttemptEffect(before, last);
      if Resolves(before, last) {
        var resolved := Round(after.hostMove, after.guestMove);
        TallyPush(rounds, resolved, HostWon);
        TallyPush(rounds, resolved, GuestWon);
        TallyPush(rounds, resolved, Draw);
      } else {
        assert rounds + [] == rounds;
      }
    }
  }

  /** The wins and draws shown add up to the accepted rematches, plus one while an outcome is showing. */
  lemma CountersAddUp(run: seq<Attempt>)
    ensures
      var s := Run(NewState(), run);
      s.hostWins + s.guestWins + s.draws == AcceptedRematches(run) + (if s.outcome == WaitingForMoves then 0 else 1)
  {
    Ledger(run);
    TallyTotal(Rounds(run));
  }

  /** A run is its first part followed by its second part. */
  lemma {:induction false} RunSplit(s: State, first: seq<Attempt>, second: seq<Attempt>)
    ensures Run(s, first + second) == Run(Run(s, first), second)
  {
    var run := first + second;
    if second == [] {
      assert run == first;
    } else {
      assert run[..|run| - 1] == first + second[..|second| - 1];
      RunSplit(s, first, second[..|second| - 1]);
    }
  }

  /** CLOSED is terminal: nothing attempted afterwards changes the game. */
  lemma {:induction false} ClosedStays(s: State, run: seq<Attempt>)
    requires s.status == Closed
    ensures Run(s, run) == s
  {
    if run != [] {
      ClosedStays(s, run[..|run| - 1]);
    }
  }

  /** Whichever of the two throws of a round arrives first, every later state of the game is the same. */
  lemma ArrivalOrderIrrelevant(before: seq<Attempt>, host: Move, guest: Move, after: seq<Attempt>)
    ensures Run(NewState(), before + [Throw(Host, host), Throw(Guest, guest)] + after)
         == Run(NewState(), before + [Throw(Guest, guest), Throw(Host, host)] + after)
  {
    var hostFirst, guestFirst := [Throw(Host, host), Throw(Guest, guest)], [Throw(Guest, guest), Throw(Host, host)];
    RunSplit(NewState(), before + hostFirst, after);
    RunSplit(NewState(), before + guestFirst, after);
    RunSplit(NewState(), before, hostFirst);
    RunSplit(NewState(), before, guestFirst);
    Ledger(before);
    ThrowsCommute(Run(NewState(), before), host, guest);
  }

  lemma ThrowsCommute(s: State, host: Move, guest: Move)
    requires Consistent(s)
    ensures Run(s, [Throw(Host, host), Throw(Guest, guest)]) == Run(s, [Throw(Guest, guest), Throw(Host, host)])
  {
    RunPair(s, Throw(Host, host), Throw(Guest, guest));
    RunPair(s, Throw(Guest, guest), Throw(Host, host));
  }

  lemma RunPair(s: State, a: Attempt, b: Attempt)
    ensures Run(s, [a, b]) == After(After(s, a), b)
  {
    assert [a, b][..1] == [a];
    assert [a][..0] == [];
    assert Run(s, [a]) == After(s, a);
  }

  // ----- Exchanging the two seats -----

  function SwapStatus(status: Status): Status {
    match status
    case HostIssuedRematch => GuestIssuedRematch
    case GuestIssuedRematch => HostIssuedRematch
    case _ => status
  }

  function SwapOutcome(outcome: Outcome): Outcome {
    match outcome
    case HostWon => GuestWon
    case GuestWon => HostWon
    case _ => outcome
  }

  function SwapState(s: State): State {
    State(SwapStatus(s.status), SwapOutcome(s.outcome), s.guestMove, s.hostMove, s.guestWins, s.hostWins, s.draws)
  }

  function SwapAttempt(a: Attempt): Attempt {
    match a
    case Throw(seat, m) => Throw(seat.Other(), m)
    case AskRematch(seat) => AskRematch(seat.Other())
    case Decline(seat) => Decline(seat.Other())
    case _ => a
  }

  function SwapRun(run: seq<Attempt>): seq<Attempt> {
    seq(|run|, i requires 0 <= i < |run| => SwapAttempt(run[i]))
  }

  /** The rules favour neither seat: each attempt succeeds, or fails with the same error, from either side. */
  lemma StepSymmetric(s: State, a: Attempt)
    ensures
      var here, there := Apply(s, a), Apply(SwapState(s), SwapAttempt(a));
      if here.Success? then there == Success(SwapState(here.value)) else there == here
  {
  }

  /** Exchanging the seats in every attempt exchanges the seats in the game the run ends with. */
  lemma {:induction false} RunSymmetric(run: seq<Attempt>)
    ensures Run(NewState(), SwapRun(run)) == SwapState(Run(NewState(), run))
  {
    if run != [] {
      var init := run[..|run| - 1];
      assert SwapRun(run)[..|run| - 1] == SwapRun(init);
      RunSymmetric(init);
      StepSymmetric(Run(NewState(), init), run[|run| - 1]);
    }
  }
}
