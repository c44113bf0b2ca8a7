/** Snapshots of a game as each of its players may see it. */
module Snapshots {
  import opened Wrappers
  import opened Rules
  import opened Store
  import opened Registry

  datatype PlayerView = PlayerView(
    player: PlayerId, name: Name, connected: bool, lockedIn: bool, move: Option<Move>, wins: nat)

  datatype Snapshot = Snapshot(
    game: GameId, status: Status, outcome: Outcome, you: Seat, host: Option<PlayerView>, guest: Option<PlayerView>,
    draws: nat)
  {
    /** What the snapshot says of a seat. */
    function Of(seat: Seat): Option<PlayerView> {
      if seat == Host then host else guest
    }
  }

  datatype Name = Name(base: string, discriminator: nat)

  /** A game with what its snapshots say about its players beside the row. */
  datatype GameView = GameView(row: Game, names: map<Seat, Name>, connected: set<Seat>) {

    function Player(seat: Seat, viewer: Seat): Option<PlayerView> {
      if seat !in names || row.PlayerOf(seat).None? then None
      else Some(PlayerView(
        row.PlayerOf(seat).value, names[seat], seat in connected, row.state.MoveOf(seat) != Pending,
        VisibleMove(row.state, viewer, seat), if seat == Guest then row.state.guestWins else row.state.hostWins))
    }

    /** The snapshot of game g for a seat. */
    function For(g: GameId, you: Seat): Snapshot {
      Snapshot(g, row.state.status, row.state.outcome, you, Player(Host, you), Player(Guest, you), row.state.draws)
    }
  }

  /** The view of a row: stored players by name, and the seats whose player has a live attached connection. */
  function ViewOf<C(==)>(db: Db, reg: Reg<C>, closing: set<C>, g: GameId, row: Game): (v: GameView)
    ensures v.row == row
  {
    GameView(
      row, Names(db, row),
      set seat | seat in {Host, Guest} && Present(reg, closing, g, row, seat))
  }

  /** A live connection of the player in the seat is attached to the game. */
  predicate Present<C(==)>(reg: Reg<C>, closing: set<C>, g: GameId, row: Game, seat: Seat) {
    exists c :: c in reg.Attached(g) && c !in closing && SitsAt(reg, c, row, seat)
  }

  function NameOf(p: Player): Name {
    Name(p.base, p.discriminator)
  }

  /** The player that connection c is authenticated as sits there. */
  predicate SitsAt<C(==)>(reg: Reg<C>, c: C, row: Game, seat: Seat) {
    reg.LinkOf(c).player.Some? && row.SeatOf(reg.LinkOf(c).player.value) == Some(seat)
  }

  /** The names of the stored players of a row. */
  function Names(db: Db, row: Game): map<Seat, Name> {
    map seat | seat in {Host, Guest} && row.PlayerOf(seat).Some? && row.PlayerOf(seat).value in db.players ::
      NameOf(db.players[row.PlayerOf(seat).value])
  }

  /**
   * A snapshot shows a seat exactly if a stored player sits there, under that player's name, and as connected exactly
   * if a live connection of the player is attached to the game.
   */
  lemma SeatsShown<C(!new)>(db: Db, reg: Reg<C>, closing: set<C>, g: GameId, row: Game, you: Seat, seat: Seat)
    requires row.host.None? || row.host != row.guest
    ensures match ViewOf(db, reg, closing, g, row).For(g, you).Of(seat)
      case Some(view) =>
        && row.PlayerOf(seat) == Some(view.player)
        && (match Get(db.players, view.player)
            case Some(p) => view.name == Name(p.base, p.discriminator)
            case None => false)
        && (view.connected <==>
              exists c :: c in reg.Attached(g) && c !in closing && reg.LinkOf(c).player == Some(view.player))
      case None => match row.PlayerOf(seat) case Some(p) => p !in db.players case None => true
  {
    var view := ViewOf(db, reg, closing, g, row);
    match row.PlayerOf(seat)
    case Some(p) => assert forall c :: SitsAt(reg, c, row, seat) <==> reg.LinkOf(c).player == Some(p);
    case None =>
  }

  /** Looks the players up by seat; the store may fail on any lookup. */
  method LoadNames(db: Db, row: Game, fails: set<Seat>) returns (r: Option<map<Seat, Name>>)
    ensures r.Some? ==> r.value == Names(db, row)
    ensures r.None? <==> exists seat :: seat in fails && row.PlayerOf(seat).Some?
  {
    var names: map<Seat, Name> := map[];
    var seats := [Host, Guest];
    for i := 0 to 2
      invariant forall j :: 0 <= j < i ==> seats[j] in fails ==> row.PlayerOf(seats[j]).None?
      invariant forall seat ::
        seat in names <==>
          (exists j :: 0 <= j < i && seats[j] == seat) && seat in Names(db, row)
      invariant forall seat :: seat in names ==> names[seat] == Names(db, row)[seat]
    {
      var id := row.PlayerOf(seats[i]);
      if id.Some? {
        if seats[i] in fails {
          return None;
        }
        if id.value in db.players {
          names := names[seats[i] := NameOf(db.players[id.value])];
        }
      }
    }
    assert seats[0] == Host && seats[1] == Guest;
    assert names == Names(db, row);
    return Some(names);
  }

  /** The seats whose player has a live connection among those of the game. */
  method LoadConnected<C(==, !new)>(reg: Reg<C>, closing: set<C>, g: GameId, row: Game) returns (connected: set<Seat>)
    ensures forall seat :: seat in connected <==> Present(reg, closing, g, row, seat)
  {
    connected := {};
    var todo := reg.Attached(g);
    ghost var done: set<C> := {};
    while todo != {}
      invariant todo + done == reg.Attached(g)
      invariant forall seat :: seat in connected <==>
        exists c :: c in done && c !in closing && SitsAt(reg, c, row, seat)
      decreases |todo|
    {
      var c :| c in todo;
      var p := reg.LinkOf(c).player;
      if p.Some? && row.SeatOf(p.value).Some? && c !in closing {
        connected := connected + {row.SeatOf(p.value).value};
      }
      todo, done := todo - {c}, done + {c};
    }
    assert done == reg.Attached(g);
  }

  /** Loads names and connection state. */
  method BuildView<C(==, !new)>(db: Db, reg: Reg<C>, closing: set<C>, g: GameId, row: Game, fails: set<Seat>)
    returns (v: Option<GameView>)
    ensures v.Some? ==> v.value == ViewOf(db, reg, closing, g, row)
    ensures v.None? <==> exists seat :: seat in fails && row.PlayerOf(seat).Some?
  {
    var names := LoadNames(db, row, fails);
    if names.None? {
      return None;
    }
    var connected := LoadConnected(reg, closing, g, row);
    var view := ViewOf(db, reg, closing, g, row);
    forall seat: Seat ensures seat in connected <==> seat in view.connected {
      assert seat.Host? || seat.Guest?;
    }
    assert connected == view.connected;
    return Some(GameView(row, names.value, connected));
  }
}
