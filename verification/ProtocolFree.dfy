/** Steps outside game locks keep the invariant. */
module ProtocolFree {
  import opened Wrappers
  import opened Timestamps
  import opened Store
  import opened Registry
  import opened Protocol
  import opened ProtocolDoes
  import opened ProtocolInvariant
  import opened ProtocolRely
  import opened ProtocolEffects
  import opened ProtocolStoreEffects

  /** Outside locks a goroutine does only what it may do there. */
  lemma FreeAllowed(sh: Shared, t: Tid, sv: Serving, o: OutPc, ch: Choice)
    requires OutOk(sh, t, o) && (t.Reader? ==> t.Mine() in sh.chan)
    ensures Allowed(sh, Some(t), None, FreeDoes(sh, t, sv, o, ch))
  {
    hide StartOk, Covers, SaveOk, MaySit, Justifies;
    assert t.Reader? ==> t == Reader(t.Mine());
  }

  lemma FreeKeeps(sh: Shared, t: Tid, sv: Serving, o: OutPc, ch: Choice)
    requires Global(sh) && OutOk(sh, t, o) && (t.Reader? ==> t.Mine() in sh.chan)
    ensures
      var to := Free(sh, t, sv, o, ch);
      Global(to.sh) && Rely(sh, to.sh, Some(t), None)
  {
    hide *;
    FreeAllowed(sh, t, sv, o, ch);
    FreeDo(sh, t, sv, o, ch);
    DoKeeps(sh, Some(t), None, FreeDoes(sh, t, sv, o, ch));
  }

  lemma ResumedOk(sh: Shared, t: Tid, d: ConnId, k: Resume)
    requires DetachOk(sh, t, d, k) && sh.Place(d) == Nowhere
    ensures OutOk(sh, t, Resumed(k))
  {
  }

  lemma CoversSame(sh: Shared, sh': Shared, p: PlayerId, todo: seq<GameId>, mark: int)
    requires Covers(sh, p, todo, mark) && sh'.db == sh.db && sh'.seatings == sh.seatings
    ensures Covers(sh', p, todo, mark)
  {
  }

  /** The players' connections are connections. */
  ghost predicate Registered(sh: Shared) {
    forall p :: p in sh.reg.players ==> sh.reg.players[p] in sh.chan && sh.PlayerOn(sh.reg.players[p]) == Some(p)
  }

  lemma ConnRegistered(sh: Shared, p: PlayerId)
    requires Registered(sh)
    ensures p in sh.reg.players ==> sh.reg.players[p] in sh.chan
  {
  }

  lemma AllRegistered(sh: Shared)
    requires Global(sh)
    ensures Registered(sh) && sh.db.players.Keys <= sh.used
  {
  }

  lemma ForgottenByPlayers(sh: Shared, c: ConnId)
    requires Registered(sh)
    ensures
      var reg := Forget(sh.reg, c);
      c !in reg.conns && forall p :: p in reg.players ==> reg.players[p] != c
  {
  }

  /** Authenticating leads where it says. */
  lemma NextAuth(sh: Shared, t: Tid, sv: Serving, o: OutPc, ch: Choice)
    requires OutOk(sh, t, o) && Registered(sh) && sh.db.players.Keys <= sh.used
    requires t.Reader? ==> t.Mine() in sh.chan
    requires o.AuthCheck? || o.AuthLoad? || o.AuthTouch? || o.AuthRegister? || o.AuthReply? || o.AuthNotify?
        || o.AuthClose?
    ensures var to := Free(sh, t, sv, o, ch); OutOk(to.sh, t, to.pc)
  {
    hide Load, StartOk, Covers;
  }

  /** Receiving and dispatching a request leads where it says. */
  lemma NextRequest(sh: Shared, t: Tid, sv: Serving, o: OutPc, ch: Choice)
    requires OutOk(sh, t, o) && Registered(sh) && sh.db.players.Keys <= sh.used
    requires t.Reader? ==> t.Mine() in sh.chan
    requires o.Idle? || o.Dispatch? || o.Gate? || o.SendErr? || o.Done? || o.Lock?
    ensures var to := Free(sh, t, sv, o, ch); OutOk(to.sh, t, to.pc)
  {
    hide Load, Covers;
  }

  /** Detaching and disconnecting lead where they say. */
  lemma NextDisconnect(sh: Shared, t: Tid, sv: Serving, o: OutPc, ch: Choice)
    requires OutOk(sh, t, o) && Registered(sh) && sh.db.players.Keys <= sh.used
    requires t.Reader? ==> t.Mine() in sh.chan
    requires o.DiscClose? || o.DiscForget? || o.DetachRead?
    ensures var to := Free(sh, t, sv, o, ch); OutOk(to.sh, t, to.pc)
  {
    hide Load, Covers;
    if o.DiscForget? {
      ForgottenByPlayers(sh, t.Mine());
    } else if o.DetachRead? && sh.Place(o.conn) == Nowhere {
      ResumedOk(sh, t, o.conn, o.resume);
    }
  }

  /** The first part of connecting leads where it says. */
  lemma NextConnect(sh: Shared, t: Tid, sv: Serving, o: OutPc, ch: Choice)
    requires OutOk(sh, t, o) && Registered(sh) && sh.db.players.Keys <= sh.used
    requires t.Reader? ==> t.Mine() in sh.chan
    requires o.ConnLoad? || o.ConnPlayer? || o.ConnCurrent? || o.WithGame?
    ensures var to := Free(sh, t, sv, o, ch); OutOk(to.sh, t, to.pc)
  {
    hide Covers;
  }

  /** The listed games cover the player's open games, whatever their order. */
  lemma ListingCovers(sh: Shared, p: PlayerId, games: seq<GameId>)
    requires Lists(games, OpenGamesOf(sh.db, p))
    ensures Covers(sh, p, games, sh.Seatings(p))
  {
    forall g | g in sh.db.games && Seated(sh.db.games[g], p) ensures g in games {
      assert g in OpenGamesOf(sh.db, p);
    }
  }

  /** Listing and closing the games of an expiring player leads where it says. */
  lemma NextListing(sh: Shared, t: Tid, sv: Serving, o: OutPc, ch: Choice)
    requires OutOk(sh, t, o) && Registered(sh) && sh.db.players.Keys <= sh.used
    requires t.Reader? ==> t.Mine() in sh.chan
    requires o.ExpLoad? || o.ExpList? || o.ExpNext?
    requires ListsGames(sh, o, ch)
    ensures var to := Free(sh, t, sv, o, ch); OutOk(to.sh, t, to.pc)
  {
    hide Covers, Lists, OpenGamesOf, Before, Registered;
    if o.ExpList? {
      ListingCovers(sh, o.player, ch.games);
    } else if o.ExpNext? && o.todo != [] {
      assert [o.todo[0]] + o.todo[1..] == o.todo;
    }
  }

  /** Closing the connection of an expiring player, and deleting it, leads where it says. */
  lemma NextDeleting(sh: Shared, t: Tid, sv: Serving, o: OutPc, ch: Choice)
    requires OutOk(sh, t, o) && Registered(sh) && sh.db.players.Keys <= sh.used
    requires t.Reader? ==> t.Mine() in sh.chan
    requires o.ExpConn? || o.ExpClose? || o.ExpDelete?
    ensures var to := Free(sh, t, sv, o, ch); OutOk(to.sh, t, to.pc)
  {
    hide Covers, Registered, DeletePlayer;
    if o.ExpConn? {
      ConnRegistered(sh, o.player);
    } else if o.ExpClose? {
      CoversSame(sh, sh.Closed(o.conn, CLOSE_PLAYER_EXPIRED), o.player, [], o.mark);
    }
  }

  lemma FreeNext(sh: Shared, t: Tid, sv: Serving, o: OutPc, ch: Choice)
    requires Global(sh) && OutOk(sh, t, o)
    requires t.Reader? ==> t.Mine() in sh.chan
    requires ListsGames(sh, o, ch)
    ensures var to := Free(sh, t, sv, o, ch); OutOk(to.sh, t, to.pc)
  {
    hide *;
    AllRegistered(sh);
    if o.AuthCheck? || o.AuthLoad? || o.AuthTouch? || o.AuthRegister? || o.AuthReply? || o.AuthNotify? || o.AuthClose? {
      NextAuth(sh, t, sv, o, ch);
    } else if o.Idle? || o.Dispatch? || o.Gate? || o.SendErr? || o.Done? || o.Lock? {
      NextRequest(sh, t, sv, o, ch);
    } else if o.DiscClose? || o.DiscForget? || o.DetachRead? {
      NextDisconnect(sh, t, sv, o, ch);
    } else if o.ConnLoad? || o.ConnPlayer? || o.ConnCurrent? || o.WithGame? {
      NextConnect(sh, t, sv, o, ch);
    } else if o.ExpLoad? || o.ExpList? || o.ExpNext? {
      NextListing(sh, t, sv, o, ch);
    } else {
      NextDeleting(sh, t, sv, o, ch);
    }
  }
}
