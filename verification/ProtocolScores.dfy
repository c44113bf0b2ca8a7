/** What the snapshots that are sent say about throws, rounds and wins. */
module ProtocolScores {
  import opened Wrappers
  import opened Rules
  import opened RulesHistory
  import opened Store
  import opened Snapshots
  import opened Protocol
  import opened ProtocolInvariant
  import opened ProtocolSafety
  import opened ProtocolTheorems

  /** A snapshot for a seat says what an account says. */
  predicate Says(snap: Snapshot, you: Seat, acc: Account) {
    && snap.you == you && snap.status == StatusOf(acc) && snap.outcome == OutcomeOf(acc)
    && snap.draws == Wins(acc.Rounds(), None)
    && SaysOf(snap.Of(Host), Host, you, acc) && SaysOf(snap.Of(Guest), Guest, you, acc)
  }

  /** Of a player it says what that seat has thrown, if the viewer may know, and how many rounds that seat has won. */
  predicate SaysOf(view: Option<PlayerView>, seat: Seat, you: Seat, acc: Account) {
    match view
    case Some(v) =>
      && v.wins == Wins(acc.Rounds(), Some(seat))
      && v.lockedIn == acc.Thrown(seat).Some?
      && v.move == (if you == seat || StatusOf(acc) != Active then acc.Thrown(seat) else None)
    case None => true
  }

  lemma ViewSays(v: GameView, g: GameId, you: Seat, acc: Account)
    requires v.row.state == Shown(acc) && Sound(acc)
    ensures Says(v.For(g, you), you, acc) && v.For(g, you).game == g
  {
    hide Wins, OutcomeOf;
  }

  lemma SavedFaithfully(w: World, g: GameId)
    requires Reached(w) && g in w.sh.saves
    ensures Faithful(w.sh.saves[g])
  {
    hide Reached, RegOk, DbOk, SeatsHeld, LogsOk, Faithful, Justified;
    Always(w);
  }

  /**
   * Every snapshot ever sent of a game that began in the initial state is of that game, for a seat, and says of throws,
   * rounds and wins exactly what the attempts saved by then tell.
   */
  lemma SnapshotsSayWhatHappened(w: World, c: ConnId, m: Msg, snap: Snap)
    requires Reached(w) && m in w.sh.Log(c) && SnapOf(m) == Some(snap)
    requires w.sh.Saves(snap.game).Start() == NewState()
    ensures
      var payload, commits := snap.Payload(), w.sh.Saves(snap.game).commits;
      && payload.game == snap.game && snap.version <= |commits|
      && Says(payload, snap.you, Told(Attempts(commits[..snap.version])))
  {
    hide Reached, Inv, Global, Says, Told, Run, Shown, Sound, Attempts, GameView.For;
    SnapshotsFollowCommits(w, c);
    assert Genuine(w.sh, snap);
    var h := w.sh.saves[snap.game];
    SavedFaithfully(w, snap.game);
    HistoryIsRun(h, snap.version);
    var attempts := Attempts(h.commits[..snap.version]);
    RunsAreTold(attempts);
    ViewSays(snap.view, snap.game, snap.you, Told(attempts));
  }
}
