/** The hub's maps, updated in place by its critical sections. */
module Hubs {
  import opened Wrappers
  import opened Rules
  import opened Store
  import opened Registry
  import opened Conns

  /** The lock object of a game; `refs` counts those who hold it or wait for it. */
  class GameLock {
    var refs: nat

    constructor ()
      ensures refs == 0
    {
      refs := 0;
    }
  }

  class Hub {
    var conns: set<Conn>
    var players: map<PlayerId, Conn>
    var games: map<GameId, set<Conn>>
    var locks: map<GameId, GameLock>
    /** Every connection ever made here. */
    ghost var known: set<Conn>

    /** The maps and the connections' own fields, as a value. */
    ghost function Indexes(): Reg<Conn>
      reads this, known
    {
      Reg(conns, players, games, map c | c in known :: c.link)
    }

    ghost predicate LocksOk()
      reads this, locks.Values
    {
      && (forall g :: g in locks ==> locks[g].refs > 0)
      && (forall g, g' :: g in locks && g' in locks && locks[g] == locks[g'] ==> g == g')
    }

    ghost predicate Valid()
      reads this, known
    {
      Indexes().Agrees()
    }

    constructor ()
      ensures Valid() && LocksOk()
      ensures conns == {} && players == map[] && games == map[] && locks == map[] && known == {}
    {
      conns, players, games, locks, known := {}, map[], map[], map[], {};
    }

    method NewConn() returns (c: Conn)
      requires Valid()
      modifies this`conns, this`known
      ensures Valid() && fresh(c) && c.Valid() && Indexes() == AddConn(old(Indexes()), c)
    {
      c := new Conn();
      conns := conns + {c};
      known := known + {c};
      AddConnAgrees(old(Indexes()), c);
      assert Indexes().link == AddConn(old(Indexes()), c).link;
    }

    /** Makes c the connection of the player it has authenticated as, and returns the one before. */
    method Register(c: Conn, p: PlayerId) returns (prior: Option<Conn>)
      requires Valid() && c in known && c.link.player.None?
      modifies this`players, c`link
      ensures Valid() && Indexes() == Bind(old(Indexes()), c, p)
      ensures prior == Get(old(players), p) && prior != Some(c)
    {
      prior := Get(players, p);
      assert prior.Some? ==> Indexes().link[prior.value].player == Some(p);
      BindAgrees(Indexes(), c, p);
      players := players[p := c];
      c.link := c.link.(player := Some(p));
      assert Indexes().link == Bind(old(Indexes()), c, p).link;
    }

    method AttachLocked(c: Conn, g: GameId, seat: Seat)
      requires Valid() && c in known && (c.link.place == Nowhere || c.link.place.In(g))
      modifies this`games, c`link
      ensures Valid() && Indexes() == Attach(old(Indexes()), c, g, seat)
    {
      AttachAgrees(Indexes(), c, g, seat);
      var attached := if g in games then games[g] else {};
      games := games[g := attached + {c}];
      c.link := c.link.(place := At(g, seat));
      assert Indexes().link == Attach(old(Indexes()), c, g, seat).link;
    }

    /** Whether there was anything to detach. */
    method DetachLocked(c: Conn) returns (detached: bool)
      requires Valid() && c in known
      modifies this`games, c`link
      ensures Valid() && Indexes() == Detach(old(Indexes()), c) && detached == old(c.link).place.At?
    {
      DetachAgrees(Indexes(), c);
      if c.link.place == Nowhere {
        return false;
      }
      var g := c.link.place.game;
      assert Indexes().link[c].place.In(g) <==> c in Indexes().Attached(g);
      var left := games[g] - {c};
      games := if left == {} then games - {g} else games[g := left];
      c.link := c.link.(place := Nowhere);
      assert Indexes().link == Detach(old(Indexes()), c).link;
      return true;
    }

    /** The connections attached to a game, each once, in some order. */
    method AttachedLocked(g: GameId) returns (listed: seq<Conn>)
      ensures forall c :: c in listed <==> c in Indexes().Attached(g)
      ensures forall i, j :: 0 <= i < j < |listed| ==> listed[i] != listed[j]
    {
      var todo := if g in games then games[g] else {};
      listed := [];
      while todo != {}
        invariant forall c :: c in Indexes().Attached(g) <==> c in listed || c in todo
        invariant forall c :: c in todo ==> c !in listed
        invariant forall i, j :: 0 <= i < j < |listed| ==> listed[i] != listed[j]
        decreases |todo|
      {
        var c :| c in todo;
        listed, todo := listed + [c], todo - {c};
      }
    }

    /** Detaches one more connection of game g. */
    method DetachNext(ghost r: Reg<Conn>, g: GameId, c: Conn, ghost before: set<Conn>)
      requires r.Agrees() && Indexes() == DetachSet(r, g, before)
      requires before <= r.Attached(g) && c in r.Attached(g) && c !in before
      modifies this`games, known`link
      ensures Indexes() == DetachSet(r, g, before + {c})
    {
      DetachSetAgrees(r, g, before);
      StillAttached(r, g, before, c);
      DetachOneMore(r, g, before, c);
      hide DetachSet, Detach, Reg.Agrees;
      assert c in known && c.link == Indexes().link[c];
      var _ := DetachLocked(c);
    }

    /** Detaches connections of a game, one after the other. */
    method DetachEach(g: GameId, cs: set<Conn>)
      requires Valid() && cs <= Indexes().Attached(g)
      modifies this`games, known`link
      ensures Valid() && Indexes() == DetachSet(old(Indexes()), g, cs)
    {
      var todo := cs;
      ghost var r := Indexes();
      ghost var done: set<Conn> := {};
      DetachNone(r, g);
      while todo != {}
        invariant Indexes() == DetachSet(r, g, done)
        invariant todo <= cs && done <= cs && todo !! done
        invariant forall c :: c in cs ==> c in todo || c in done
        decreases |todo|
      {
        var c :| c in todo;
        DetachNext(r, g, c, done);
        todo, done := todo - {c}, done + {c};
      }
      assert done == cs;
      DetachSetAgrees(r, g, cs);
    }

    /** Detaches whatever connections of player p are attached to a game. */
    method DetachPlayer(g: GameId, p: PlayerId)
      requires Valid()
      modifies this`games, known`link
      ensures
        var r := old(Indexes());
        Valid() && Indexes() == DetachSet(r, g, set c | c in r.Attached(g) && r.LinkOf(c).player == Some(p))
    {
      ghost var r := Indexes();
      AttachedKnown(r, g);
      var attached := if g in games then games[g] else {};
      var cs := set c | c in attached && c.link.player == Some(p);
      assert cs == set c | c in r.Attached(g) && r.LinkOf(c).player == Some(p);
      DetachEach(g, cs);
    }

    /** Removes a disconnected connection; a newer connection of its player stays. */
    method Remove(c: Conn)
      requires Valid() && c in known
      modifies this`players, this`conns
      ensures Valid() && Indexes() == Forget(old(Indexes()), c)
      ensures old(c.link.place) == Nowhere ==> Indexes().Forgotten(c)
    {
      ForgetAgrees(Indexes(), c);
      if c.link.place == Nowhere {
        ForgetForgets(Indexes(), c);
      }
      if c.link.player.Some? && c.link.player.value in players && players[c.link.player.value] == c {
        players := players - {c.link.player.value};
      }
      conns := conns - {c};
      assert Indexes().link == old(Indexes()).link;
    }

    /** Asks every registered connection to close; those that are closing already keep their code. */
    method CloseAll(code: int)
      requires forall c :: c in conns ==> c.Valid()
      modifies conns`closing
      ensures forall c :: c in conns ==> c.Valid() && c.Outbound() == Protocol.Close(old(c.Outbound()), code)
    {
      var todo := conns;
      while todo != {}
        invariant todo <= conns
        invariant forall c :: c in conns ==> c.Valid()
        invariant forall c :: c in todo ==> c.Outbound() == old(c.Outbound())
        invariant forall c :: c in conns && c !in todo ==> c.Outbound() == Protocol.Close(old(c.Outbound()), code)
        decreases |todo|
      {
        var c :| c in todo;
        c.Close(code);
        todo := todo - {c};
      }
    }

    // ----- Game locks -----

    /** Finds or makes the lock object of a game, and counts the caller among its users. */
    method UseLock(g: GameId) returns (l: GameLock)
      requires LocksOk()
      modifies this`locks, locks.Values`refs
      ensures LocksOk() && locks == old(locks)[g := l]
      ensures
        if g in old(locks) then l == old(locks)[g] && l.refs == old(locks[g].refs) + 1 else fresh(l) && l.refs == 1
      ensures forall g' :: g' in old(locks) && g' != g ==> old(locks)[g'].refs == old(locks[g'].refs)
    {
      if g in locks {
        l := locks[g];
      } else {
        l := new GameLock();
        locks := locks[g := l];
      }
      l.refs := l.refs + 1;
    }

    /** Stops counting the caller, and drops the entry with the last user. */
    method DropLock(g: GameId, l: GameLock)
      requires LocksOk() && g in locks && locks[g] == l
      modifies this`locks, l`refs
      ensures LocksOk() && l.refs == old(l.refs) - 1
      ensures locks == if l.refs == 0 then old(locks) - {g} else old(locks)
    {
      l.refs := l.refs - 1;
      if l.refs == 0 {
        locks := locks - {g};
      }
    }
  }

  lemma DetachNone(r: Reg<Conn>, g: GameId)
    requires r.Agrees()
    ensures DetachSet(r, g, {}) == r
  {
    var r' := DetachSet(r, g, {});
    assert r.Attached(g) - {} == r.Attached(g);
    assert r'.games == r.games;
    assert r'.link == r.link;
  }

  lemma AttachedKnown(r: Reg<Conn>, g: GameId)
    requires r.Agrees()
    ensures r.Attached(g) <= r.link.Keys
  {
  }

  lemma StillAttached(r: Reg<Conn>, g: GameId, cs: set<Conn>, c: Conn)
    requires r.Agrees() && cs <= r.Attached(g) && c in r.Attached(g) && c !in cs
    ensures c in r.link && r.link[c].place.In(g) && r.LinkOf(c) == r.link[c]
    ensures c in DetachSet(r, g, cs).link && DetachSet(r, g, cs).link[c] == r.link[c]
  {
    assert c in r.link && (r.link[c].place.In(g) <==> c in r.Attached(g));
  }

  /** Detaching one connection after others of the same game is detaching them together. */
  lemma DetachOneMore(r: Reg<Conn>, g: GameId, cs: set<Conn>, c: Conn)
    requires r.Agrees() && cs <= r.Attached(g) && c in r.Attached(g) && c !in cs
    ensures Detach(DetachSet(r, g, cs), c) == DetachSet(r, g, cs + {c})
  {
    DetachSetAgrees(r, g, cs);
    var mid, r' := DetachSet(r, g, cs), DetachSet(r, g, cs + {c});
    assert r.link[c].place.In(g) <==> c in r.Attached(g);
    assert mid.LinkOf(c) == r.link[c];
    assert r.Attached(g) - (cs + {c}) == (r.Attached(g) - cs) - {c};
    assert Detach(mid, c).link == r'.link;
    assert Detach(mid, c).games == r'.games;
  }
}
