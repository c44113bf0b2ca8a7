/**
 * The hub's in-memory indexes, as values: which connections are registered, which one each player is on,
 * and which are attached to each game. `C` identifies a connection.
 */
module Registry {
  import opened Wrappers
  import opened Rules
  import opened Store

  datatype Place = Nowhere | At(game: GameId, seat: Seat) {
    predicate In(g: GameId) {
      At? && game == g
    }
  }

  /** The fields of a connection that the registry lock guards. */
  datatype Link = Link(player: Option<PlayerId>, place: Place)

  /** `link` covers every connection ever made; the indexes cover those in use. */
  datatype Reg<C(==)> = Reg(conns: set<C>, players: map<PlayerId, C>, games: map<GameId, set<C>>, link: map<C, Link>) {

    function Attached(g: GameId): set<C> {
      if g in games then games[g] else {}
    }

    function LinkOf(c: C): Link {
      if c in link then link[c] else Link(None, Nowhere)
    }

    /** The indexes agree with each other and with the connections' own fields. */
    ghost predicate Agrees() {
      && conns <= link.Keys
      && (forall g :: g in games ==> games[g] != {} && games[g] <= link.Keys)
      && (forall c, g :: c in link ==> (link[c].place.In(g) <==> c in Attached(g)))
      && (forall p :: p in players ==> players[p] in link && link[players[p]].player == Some(p))
    }

    /** No index mentions the connection. */
    ghost predicate Forgotten(c: C) {
      && c !in conns
      && (forall p :: p in players ==> players[p] != c)
      && (forall g :: c !in Attached(g))
    }
  }

  function AddConn<C>(r: Reg<C>, c: C): Reg<C> {
    r.(conns := r.conns + {c}, link := r.link[c := Link(None, Nowhere)])
  }

  /** Makes c the connection of player p. */
  function Bind<C>(r: Reg<C>, c: C, p: PlayerId): Reg<C> {
    r.(players := r.players[p := c], link := r.link[c := r.LinkOf(c).(player := Some(p))])
  }

  function Attach<C>(r: Reg<C>, c: C, g: GameId, seat: Seat): Reg<C> {
    r.(games := r.games[g := r.Attached(g) + {c}], link := r.link[c := r.LinkOf(c).(place := At(g, seat))])
  }

  /** Drops c from the set of game g, and the set itself once it is empty. */
  function Without<C>(games: map<GameId, set<C>>, g: GameId, c: C): map<GameId, set<C>> {
    if g !in games then games
    else if games[g] - {c} == {} then games - {g}
    else games[g := games[g] - {c}]
  }

  function Detach<C>(r: Reg<C>, c: C): Reg<C> {
    match r.LinkOf(c).place
    case Nowhere => r
    case At(g, _) =>
      r.(games := Without(r.games, g, c), link := r.link[c := r.LinkOf(c).(place := Nowhere)])
  }

  /** Detaches a set of connections that are attached to game g. */
  function DetachSet<C>(r: Reg<C>, g: GameId, cs: set<C>): Reg<C> {
    var left := r.Attached(g) - cs;
    r.(games := if left == {} then r.games - {g} else r.games[g := left],
       link := map c | c in r.link :: if c in cs then r.link[c].(place := Nowhere) else r.link[c])
  }

  /** Removes a disconnected connection; the player keeps a newer connection, if there is one. */
  function Forget<C>(r: Reg<C>, c: C): Reg<C> {
    var p := r.LinkOf(c).player;
    r.(players := if p.Some? && Get(r.players, p.value) == Some(c) then r.players - {p.value} else r.players,
       conns := r.conns - {c})
  }

  // ----- Every critical section keeps the indexes in agreement -----

  lemma AddConnAgrees<C>(r: Reg<C>, c: C)
    requires r.Agrees() && c !in r.link
    ensures AddConn(r, c).Agrees()
  {
    var r' := AddConn(r, c);
    forall d, g | d in r'.link ensures r'.link[d].place.In(g) <==> d in r'.Attached(g) {
      assert d in r.link ==> (r.link[d].place.In(g) <==> d in r.Attached(g));
      assert g in r.games ==> r.games[g] <= r.link.Keys;
    }
  }

  /** A connection that has no player yet may be bound to one. */
  lemma BindAgrees<C>(r: Reg<C>, c: C, p: PlayerId)
    requires r.Agrees() && c in r.link && r.link[c].player.None?
    ensures Bind(r, c, p).Agrees()
  {
    var r' := Bind(r, c, p);
    forall d, g | d in r'.link ensures r'.link[d].place.In(g) <==> d in r'.Attached(g) {
      assert r.link[d].place.In(g) <==> d in r.Attached(g);
    }
  }

  /** Attaching keeps the indexes in agreement exactly when the connection is in no other game. */
  lemma AttachAgrees<C>(r: Reg<C>, c: C, g: GameId, seat: Seat)
    requires r.Agrees() && c in r.link
    ensures Attach(r, c, g, seat).Agrees() <==> r.link[c].place == Nowhere || r.link[c].place.In(g)
    ensures Attach(r, c, g, seat).Attached(g) == r.Attached(g) + {c}
    ensures forall g' :: g' != g ==> Attach(r, c, g, seat).Attached(g') == r.Attached(g')
  {
    var r' := Attach(r, c, g, seat);
    if r.link[c].place == Nowhere || r.link[c].place.In(g) {
      forall d, g' | d in r'.link ensures r'.link[d].place.In(g') <==> d in r'.Attached(g') {
        assert r.link[d].place.In(g') <==> d in r.Attached(g');
      }
    } else {
      var other := r.link[c].place.game;
      assert c in r.Attached(other) && c in r'.Attached(other);
      assert !r'.link[c].place.In(other);
    }
  }

  /** After detaching, the connection is in no game, and the others are where they were. */
  lemma DetachAgrees<C>(r: Reg<C>, c: C)
    requires r.Agrees() && c in r.link
    ensures Detach(r, c).Agrees()
    ensures forall g :: Detach(r, c).Attached(g) == r.Attached(g) - {c}
  {
    var r' := Detach(r, c);
    forall g ensures r'.Attached(g) == r.Attached(g) - {c} {
      assert r.link[c].place.In(g) <==> c in r.Attached(g);
    }
    forall d, g | d in r'.link ensures r'.link[d].place.In(g) <==> d in r'.Attached(g) {
      assert r.link[d].place.In(g) <==> d in r.Attached(g);
    }
  }

  lemma DetachSetAgrees<C>(r: Reg<C>, g: GameId, cs: set<C>)
    requires r.Agrees() && cs <= r.Attached(g)
    ensures DetachSet(r, g, cs).Agrees()
    ensures DetachSet(r, g, cs).Attached(g) == r.Attached(g) - cs
    ensures forall g' :: g' != g ==> DetachSet(r, g, cs).Attached(g') == r.Attached(g')
  {
    var r' := DetachSet(r, g, cs);
    forall d, g' | d in r'.link ensures r'.link[d].place.In(g') <==> d in r'.Attached(g') {
      assert r.link[d].place.In(g') <==> d in r.Attached(g');
      assert d in cs ==> r.link[d].place.In(g);
    }
  }

  lemma ForgetAgrees<C>(r: Reg<C>, c: C)
    requires r.Agrees() && c in r.link
    ensures Forget(r, c).Agrees()
  {
    var r' := Forget(r, c);
    forall d, g | d in r'.link ensures r'.link[d].place.In(g) <==> d in r'.Attached(g) {
      assert r.link[d].place.In(g) <==> d in r.Attached(g);
    }
  }

  /** Once a detached connection is removed, no index mentions it. */
  lemma ForgetForgets<C>(r: Reg<C>, c: C)
    requires r.Agrees() && c in r.link && r.link[c].place == Nowhere
    ensures Forget(r, c).Forgotten(c)
  {
    var r' := Forget(r, c);
    forall g ensures c !in r'.Attached(g) {
      assert r.link[c].place.In(g) <==> c in r.Attached(g);
    }
  }
}
