/** A sweep that nothing interrupts and in which no store call fails. */
module Sweeps {
  import opened Wrappers
  import opened Timestamps
  import opened Rules
  import opened Store

  /** Whether one of some players sits in an open game. */
  predicate SeatsAny(row: Game, players: set<PlayerId>) {
    && row.state.status != Status.Closed
    && ((row.host.Some? && row.host.value in players) || (row.guest.Some? && row.guest.value in players))
  }

  function Vacated(seat: Option<PlayerId>, players: set<PlayerId>): Option<PlayerId> {
    if seat.Some? && seat.value in players then None else seat
  }

  /** A game some of whose players have gone: closed if it was open, and without them; nothing else changes. */
  function Bereft(row: Game, gone: set<PlayerId>): Game {
    row.(state := if SeatsAny(row, gone) then row.state.(status := Status.Closed) else row.state,
         host := Vacated(row.host, gone), guest := Vacated(row.guest, gone))
  }

  function WithoutPlayers(db: Db, gone: set<PlayerId>): Db {
    Db(db.players - gone, map g | g in db.games :: Bereft(db.games[g], gone))
  }

  /** The players inactive since before the cutoff. */
  function Inactive(db: Db, cutoff: Time): set<PlayerId> {
    set p | p in db.players && Before(db.players[p].lastActive, cutoff)
  }

  function InactiveGames(db: Db, cutoff: Time): set<GameId> {
    set g | g in db.games && Before(db.games[g].lastActive, cutoff)
  }

  function WithoutGames(db: Db, gone: set<GameId>): Db {
    db.(games := db.games - gone)
  }

  /** What a sweep leaves: exactly the players and games active since their cutoffs. */
  function Swept(db: Db, playerCutoff: Time, gameCutoff: Time): Db {
    var left := WithoutPlayers(db, Inactive(db, playerCutoff));
    WithoutGames(left, InactiveGames(left, gameCutoff))
  }

  // ----- The specification, player by player -----

  function ClosedRows(db: Db, closed: set<GameId>): Db {
    db.(games := map g | g in db.games ::
      if g in closed then db.games[g].(state := db.games[g].state.(status := Status.Closed)) else db.games[g])
  }

  lemma ClosingOneMore(db: Db, closed: set<GameId>, g: GameId)
    requires g in db.games && g !in closed
    ensures
      var mid := ClosedRows(db, closed);
      mid.(games := mid.games[g := db.games[g].(state := db.games[g].state.(status := Status.Closed))])
          == ClosedRows(db, closed + {g})
  {
  }

  lemma NoneClosed(db: Db)
    ensures ClosedRows(db, {}) == db
  {
    assert ClosedRows(db, {}).games == db.games;
  }

  /** Closing a player's open games and deleting the player leaves the games bereft of it. */
  lemma ClosingAndDeleting(db: Db, p: PlayerId)
    requires p in db.players
    ensures DeletePlayer(ClosedRows(db, OpenGamesOf(db, p)), p) == WithoutPlayers(db, {p})
  {
    var d, d' := DeletePlayer(ClosedRows(db, OpenGamesOf(db, p)), p), WithoutPlayers(db, {p});
    forall g | g in db.games ensures d.games[g] == d'.games[g] {
    }
    assert d.games == d'.games;
  }

  lemma BereftTwice(row: Game, a: set<PlayerId>, b: set<PlayerId>)
    ensures Bereft(Bereft(row, a), b) == Bereft(row, a + b)
  {
  }

  lemma WithoutTwice(db: Db, a: set<PlayerId>, b: set<PlayerId>)
    ensures WithoutPlayers(WithoutPlayers(db, a), b) == WithoutPlayers(db, a + b)
  {
    var once, twice, both := WithoutPlayers(db, a), WithoutPlayers(WithoutPlayers(db, a), b), WithoutPlayers(db, a + b);
    forall g | g in db.games ensures twice.games[g] == both.games[g] {
      BereftTwice(db.games[g], a, b);
    }
    assert twice.games == both.games;
    assert twice.players == both.players;
  }

  lemma WithoutNone(db: Db)
    ensures WithoutPlayers(db, {}) == db
  {
    assert WithoutPlayers(db, {}).games == db.games;
    assert WithoutPlayers(db, {}).players == db.players;
  }

  lemma WithoutKeepsKeys(db: Db, gone: set<PlayerId>)
    requires db.ForeignKeys()
    ensures WithoutPlayers(db, gone).ForeignKeys()
  {
  }

  lemma ClosedKeepsKeys(db: Db, closed: set<GameId>)
    requires db.ForeignKeys()
    ensures ClosedRows(db, closed).ForeignKeys()
  {
  }

  lemma GameAfterGame(db: Db, gone: set<GameId>, g: GameId)
    requires g in db.games && g !in gone
    ensures
      var left := WithoutGames(db, gone);
      g in left.games && left.games[g] == db.games[g] && DeleteGame(left, g) == WithoutGames(db, gone + {g})
  {
    assert (db.games - gone) - {g} == db.games - (gone + {g});
  }

  /** The query that compares texts selects exactly the rows that the later check by time accepts. */
  lemma QueryAgreesWithCheck(db: Db, cutoff: Time)
    ensures ExpiredPlayers(db, cutoff) == Inactive(db, cutoff)
    ensures ExpiredGames(db, cutoff) == InactiveGames(db, cutoff)
  {
    forall p | p in db.players
      ensures TextLess(FormatTime(db.players[p].lastActive), FormatTime(cutoff)) <==>
          Before(db.players[p].lastActive, cutoff)
    {
      TextOrderIsTimeOrder(db.players[p].lastActive, cutoff);
    }
    forall g | g in db.games
      ensures TextLess(FormatTime(db.games[g].lastActive), FormatTime(cutoff)) <==>
          Before(db.games[g].lastActive, cutoff)
    {
      TextOrderIsTimeOrder(db.games[g].lastActive, cutoff);
    }
    assert ExpiredPlayers(db, cutoff) == Inactive(db, cutoff);
  }

  // ----- The algorithm -----

  class Sweeper {
    var db: Db

    constructor (stored: Db)
      ensures db == stored
    {
      db := stored;
    }

    /** Closes a game for a player who is being expired, if the player still has an open seat in it. */
    method CloseForExpiredPlayer(g: GameId, p: PlayerId)
      requires db.ForeignKeys()
      modifies this
      ensures
        db == if g in old(db).games && Seated(old(db).games[g], p)
              then old(db).(games :=
                  old(db).games[g := old(db).games[g].(state := old(db).games[g].state.(status := Status.Closed))])
              else old(db)
    {
      if g in db.games {
        var row := db.games[g];
        if row.SeatOf(p).Some? && row.state.status != Status.Closed {
          var closed := CloseGame(row.state);
          var saved := SaveGame(db, g, row.(state := closed.value), None, row.lastActive);
          assert saved.Success?;
          db := saved.value;
        }
      }
    }

    method ExpirePlayer(p: PlayerId, cutoff: Time)
      requires db.ForeignKeys()
      modifies this
      ensures
        db == if p in old(db).players && Before(old(db).players[p].lastActive, cutoff)
            then WithoutPlayers(old(db), {p}) else old(db)
    {
      if p !in db.players || !Before(db.players[p].lastActive, cutoff) {
        return;
      }
      var todo := OpenGamesOf(db, p);
      ghost var done: set<GameId> := {};
      NoneClosed(db);
      while todo != {}
        invariant todo <= OpenGamesOf(old(db), p) && done <= OpenGamesOf(old(db), p) && todo !! done
        invariant forall g :: g in OpenGamesOf(old(db), p) ==> g in todo || g in done
        invariant db == ClosedRows(old(db), done)
        decreases |todo|
      {
        var g :| g in todo;
        ClosedKeepsKeys(old(db), done);
        ClosingOneMore(old(db), done, g);
        CloseForExpiredPlayer(g, p);
        todo, done := todo - {g}, done + {g};
      }
      assert done == OpenGamesOf(old(db), p);
      ClosingAndDeleting(old(db), p);
      db := DeletePlayer(db, p);
    }

    method ExpireGame(g: GameId, cutoff: Time)
      modifies this
      ensures
        db == if g in old(db).games && Before(old(db).games[g].lastActive, cutoff) then DeleteGame(old(db), g)
            else old(db)
    {
      if g in db.games && Before(db.games[g].lastActive, cutoff) {
        db := DeleteGame(db, g);
      }
    }

    method ExpirePlayers(cutoff: Time)
      requires db.ForeignKeys()
      modifies this
      ensures db == WithoutPlayers(old(db), Inactive(old(db), cutoff))
    {
      var todo := ExpiredPlayers(db, cutoff);
      ghost var start, all, gone: set<PlayerId> := db, Inactive(db, cutoff), {};
      QueryAgreesWithCheck(db, cutoff);
      WithoutNone(db);
      while todo != {}
        invariant todo <= all && gone <= all && todo !! gone
        invariant forall p :: p in all ==> p in todo || p in gone
        invariant db == WithoutPlayers(start, gone)
        decreases |todo|
      {
        var p :| p in todo;
        WithoutKeepsKeys(start, gone);
        WithoutTwice(start, gone, {p});
        ExpirePlayer(p, cutoff);
        todo, gone := todo - {p}, gone + {p};
      }
      assert gone == all;
    }

    method ExpireGames(cutoff: Time)
      modifies this
      ensures db == WithoutGames(old(db), InactiveGames(old(db), cutoff))
    {
      var todo := ExpiredGames(db, cutoff);
      ghost var start, all, gone: set<GameId> := db, InactiveGames(db, cutoff), {};
      QueryAgreesWithCheck(db, cutoff);
      assert db.games - {} == db.games;
      while todo != {}
        invariant todo <= all && gone <= all && todo !! gone
        invariant forall g :: g in all ==> g in todo || g in gone
        invariant db == WithoutGames(start, gone)
        decreases |todo|
      {
        var g :| g in todo;
        GameAfterGame(start, gone, g);
        ExpireGame(g, cutoff);
        todo, gone := todo - {g}, gone + {g};
      }
      assert gone == all;
    }

    /**
     * Leaves exactly the players and games active since their cutoffs. A surviving game of an expired player is
     * CLOSED and without that player; its throws, counters and activity time are what they were. Every other
     * survivor is unchanged.
     */
    method SweepOnce(playerCutoff: Time, gameCutoff: Time)
      requires db.ForeignKeys()
      modifies this
      ensures db == Swept(old(db), playerCutoff, gameCutoff) && db.ForeignKeys()
    {
      WithoutKeepsKeys(db, Inactive(db, playerCutoff));
      ExpirePlayers(playerCutoff);
      ExpireGames(gameCutoff);
    }
  }

  // ----- What it means -----

  /**
   * Exactly the active survive. A surviving game loses exactly its inactive players, is CLOSED exactly if it was or
   * lost a player while it was open, and keeps everything else.
   */
  lemma WhatSurvives(db: Db, playerCutoff: Time, gameCutoff: Time)
    ensures
      var db', gone := Swept(db, playerCutoff, gameCutoff), Inactive(db, playerCutoff);
      && (forall p :: p in db'.players <==> p in db.players && !Before(db.players[p].lastActive, playerCutoff))
      && (forall p :: p in db'.players ==> db'.players[p] == db.players[p])
      && (forall g :: g in db'.games <==> g in db.games && !Before(db.games[g].lastActive, gameCutoff))
      && (forall g :: g in db'.games ==>
            var row, row' := db.games[g], db'.games[g];
            && row'.lastActive == row.lastActive && row'.digest == row.digest
            && row'.state == row.state.(status := row'.state.status)
            && (row'.host.None? <==> row.host.None? || row.host.value in gone)
                && (row'.host.Some? ==> row'.host == row.host)
            && (row'.guest.None? <==> row.guest.None? || row.guest.value in gone)
                && (row'.guest.Some? ==> row'.guest == row.guest)
            && (row'.state.status == Status.Closed <==> row.state.status == Status.Closed || SeatsAny(row, gone))
            && (row'.state.status != Status.Closed ==> row'.state == row.state))
  {
  }

  /** A second sweep at the same time does nothing. */
  lemma SweepingTwice(db: Db, playerCutoff: Time, gameCutoff: Time)
    requires db.ForeignKeys()
    ensures Swept(Swept(db, playerCutoff, gameCutoff), playerCutoff, gameCutoff) == Swept(db, playerCutoff, gameCutoff)
  {
    var once := Swept(db, playerCutoff, gameCutoff);
    assert Inactive(once, playerCutoff) == {} && InactiveGames(once, gameCutoff) == {};
    WithoutNone(once);
    assert once.games - {} == once.games;
  }
}
