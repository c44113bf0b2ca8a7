/**
 * What one step may do to the others: a goroutine changes a game's row, attachments and snapshots only under
 * that game's lock; only a connection's own reader binds, attaches or registers it; closing is for good.
 */
module ProtocolRely {
  import opened Wrappers
  import opened Store
  import opened Registry
  import opened Protocol
  import opened ProtocolInvariant

  /** A seat keeps its player, or loses it to the deletion of that player. */
  ghost predicate SeatKept(before: Option<PlayerId>, after: Option<PlayerId>, db: Db) {
    after == before || (before.Some? && after.None? && before.value !in db.players)
  }

  ghost predicate RowKept(before: Game, after: Game, db: Db) {
    && after.digest == before.digest && after.state == before.state && after.lastActive == before.lastActive
    && SeatKept(before.host, after.host, db) && SeatKept(before.guest, after.guest, db)
  }

  ghost predicate PlayersKept(sh: Shared, sh': Shared) {
    && sh.used <= sh'.used
    && (forall p :: p in sh.used && p in sh'.db.players ==> p in sh.db.players)
    && (forall p :: sh.Seatings(p) <= sh'.Seatings(p))
    && (forall p, g :: g in sh'.db.games && Seated(sh'.db.games[g], p) && sh'.Seatings(p) == sh.Seatings(p) ==>
          g in sh.db.games && Seated(sh.db.games[g], p))
  }

  /** The rows and saves of every game but the locked one. */
  ghost predicate RowsKept(sh: Shared, sh': Shared, lock: Option<GameId>) {
    && (forall g :: g in sh.db.games && lock != Some(g) ==>
          g in sh'.db.games && RowKept(sh.db.games[g], sh'.db.games[g], sh'.db))
    && (forall g :: g in sh.saves && lock != Some(g) ==> g in sh'.saves && sh'.saves[g] == sh.saves[g])
  }

  /** A connection, as seen by everybody but its own reader. */
  ghost predicate ConnKept(sh: Shared, sh': Shared, c: ConnId) {
    && sh'.PlayerOn(c) == sh.PlayerOn(c)
    && (sh'.Place(c) == sh.Place(c) || sh'.Place(c) == Nowhere)
    && (forall p :: p in sh'.reg.players && sh'.reg.players[p] == c ==> p in sh.reg.players && sh.reg.players[p] == c)
    && (c in sh'.reg.conns ==> c in sh.reg.conns)
  }

  ghost predicate RegKept(sh: Shared, sh': Shared, who: Option<Tid>, lock: Option<GameId>) {
    && (forall g: GameId :: lock != Some(g) ==> sh'.reg.Attached(g) == sh.reg.Attached(g))
    && (forall c :: c in sh.reg.link && who != Some(Reader(c)) ==> ConnKept(sh, sh', c))
    && (forall c :: c in sh.reg.link && sh.Place(c).At? && lock != Some(sh.Place(c).game) ==>
          sh'.Place(c) == sh.Place(c))
  }

  ghost predicate ChansKept(sh: Shared, sh': Shared, lock: Option<GameId>) {
    && sh.chan.Keys <= sh'.chan.Keys
    && (forall c :: sh.Closing(c) ==> sh'.Closing(c))
    && (forall c, g: GameId :: c in sh.chan && lock != Some(g) ==>
          LastAbout(sh'.chan[c].log, g) == LastAbout(sh.chan[c].log, g))
  }

  ghost predicate StaleKept(sh: Shared, sh': Shared, lock: Option<GameId>) {
    forall g: GameId :: lock != Some(g) ==> (g in sh.stale <==> g in sh'.stale)
  }

  /** A step by `who`, under the lock of game `lock` if any. */
  ghost predicate Rely(sh: Shared, sh': Shared, who: Option<Tid>, lock: Option<GameId>) {
    && PlayersKept(sh, sh')
    && RowsKept(sh, sh', lock)
    && RegKept(sh, sh', who, lock)
    && ChansKept(sh, sh', lock)
    && StaleKept(sh, sh', lock)
  }

  /** Everything about game g that its lock protects. */
  ghost predicate GameKept(sh: Shared, sh': Shared, g: GameId) {
    && (g in sh.db.games ==> g in sh'.db.games && RowKept(sh.db.games[g], sh'.db.games[g], sh'.db))
    && (g in sh.saves ==> g in sh'.saves && sh'.saves[g] == sh.saves[g])
    && sh'.reg.Attached(g) == sh.reg.Attached(g)
    && (g in sh.stale <==> g in sh'.stale)
    && (forall c :: c in sh.chan && c in sh'.chan ==> LastAbout(sh'.chan[c].log, g) == LastAbout(sh.chan[c].log, g))
  }

  lemma Unlocked(sh: Shared, sh': Shared, who: Option<Tid>, lock: Option<GameId>, g: GameId)
    requires Rely(sh, sh', who, lock) && lock != Some(g)
    ensures GameKept(sh, sh', g)
  {
  }

  // ----- Assertions survive the steps of others -----

  lemma CoversStable(sh: Shared, sh': Shared, p: PlayerId, todo: seq<GameId>, mark: int)
    requires PlayersKept(sh, sh') && Covers(sh, p, todo, mark)
    ensures Covers(sh', p, todo, mark)
  {
    if sh'.Seatings(p) == mark {
      assert sh.Seatings(p) == mark;
      forall g | g in sh'.db.games && Seated(sh'.db.games[g], p) ensures g in todo {
      }
    }
  }

  /** What a goroutine that stands outside of all this keeps: its own connection, and that closing is for good. */
  ghost predicate OwnKept(sh: Shared, sh': Shared, t: Tid) {
    && PlayersKept(sh, sh') && sh.chan.Keys <= sh'.chan.Keys
    && (forall c :: sh.Closing(c) ==> sh'.Closing(c))
    && (t.Reader? ==> ConnKept(sh, sh', t.Mine()))
  }

  lemma OwnStable(sh: Shared, sh': Shared, who: Option<Tid>, lock: Option<GameId>, t: Tid)
    requires Rely(sh, sh', who, lock) && who != Some(t) && (t.Reader? ==> t.Mine() in sh.reg.link)
    ensures OwnKept(sh, sh', t)
  {
    hide PlayersKept, RowsKept, StaleKept;
  }

  lemma DetachStable(sh: Shared, sh': Shared, t: Tid, d: ConnId, k: Resume)
    requires OwnKept(sh, sh', t) && DetachOk(sh, t, d, k)
    ensures DetachOk(sh', t, d, k)
  {
    hide Covers, PlayersKept;
    if k.GoDelete? {
      CoversStable(sh, sh', k.expired, [], k.mark);
    }
  }

  lemma StartStable(sh: Shared, sh': Shared, t: Tid, g: GameId, i: InPc)
    requires OwnKept(sh, sh', t) && StartOk(sh, t, g, i)
    ensures StartOk(sh', t, g, i)
  {
    hide Covers, PlayersKept, DetachOk;
    if i.DetachCheck? {
      DetachStable(sh, sh', t, i.conn, i.resume);
    } else if i.ExpReload? {
      CoversStable(sh, sh', i.player, [g] + i.todo, i.mark);
    }
  }

  lemma OutStable(sh: Shared, sh': Shared, t: Tid, o: OutPc)
    requires OwnKept(sh, sh', t) && OutOk(sh, t, o)
    ensures OutOk(sh', t, o)
  {
    hide StartOk, DetachOk, Covers;
    match o
    case Lock(g, i) => StartStable(sh, sh', t, g, i);
    case DetachRead(d, _, k) => DetachStable(sh, sh', t, d, k);
    case ExpNext(p, todo, mark) => CoversStable(sh, sh', p, todo, mark);
    case ExpConn(p, mark) => CoversStable(sh, sh', p, [], mark);
    case ExpClose(p, _, mark) => CoversStable(sh, sh', p, [], mark);
    case ExpDelete(p, mark) => CoversStable(sh, sh', p, [], mark);
    case _ =>
  }

  /** The seats of a stored game refer to players that are or were stored. */
  ghost predicate RowKnown(sh: Shared, g: GameId) {
    g in sh.db.games ==>
      && g in sh.saves
      && (sh.db.games[g].host.Some? ==> sh.db.games[g].host.value in sh.used)
      && (sh.db.games[g].guest.Some? ==> sh.db.games[g].guest.value in sh.used)
  }

  ghost predicate ReaderKnown(sh: Shared, t: Tid) {
    t.Reader? ==>
      && t.Mine() in sh.chan && t.Mine() in sh.reg.link
      && (sh.PlayerOn(t.Mine()).Some? ==> sh.PlayerOn(t.Mine()).value in sh.used)
  }

  /** What a goroutine knows of a game it has locked survives the steps of others. */
  lemma RowStable(sh: Shared, sh': Shared, g: GameId)
    requires GameKept(sh, sh', g) && RowKnown(sh, g)
    ensures Live(sh, g) ==> Live(sh', g)
    ensures forall st, v :: RowIs(sh, g, st, v) ==> RowIs(sh', g, st, v)
    ensures sh'.reg.Attached(g) == sh.reg.Attached(g)
  {
  }

  lemma CopiesStable(sh: Shared, sh': Shared, g: GameId, copy: Game)
    requires PlayersKept(sh, sh') && GameKept(sh, sh', g) && RowKnown(sh, g) && g in sh.db.games
    ensures sh'.db.games[g].state == sh.db.games[g].state && sh'.db.games[g].lastActive == sh.db.games[g].lastActive
    ensures SeatCopied(sh, sh.db.games[g].host, copy.host) ==> SeatCopied(sh', sh'.db.games[g].host, copy.host)
    ensures SeatCopied(sh, sh.db.games[g].guest, copy.guest) ==> SeatCopied(sh', sh'.db.games[g].guest, copy.guest)
    ensures sh.db.games[g].guest.None? ==> sh'.db.games[g].guest.None?
  {
    assert RowKept(sh.db.games[g], sh'.db.games[g], sh'.db);
  }

  /** A goroutine that holds the lock of g finds its own connection where it left it, if that was in g. */
  predicate StaysIn(sh: Shared, sh': Shared, t: Tid, g: GameId) {
    t.Reader? && sh.Place(t.Mine()).In(g) ==> sh'.Place(t.Mine()) == sh.Place(t.Mine())
  }

  lemma CopyStable(sh: Shared, sh': Shared, t: Tid, g: GameId, i: InPc)
    requires OwnKept(sh, sh', t) && GameKept(sh, sh', g) && StaysIn(sh, sh', t, g)
    requires RowKnown(sh, g) && ReaderKnown(sh, t)
    requires CopyOk(sh, t, g, i)
    ensures CopyOk(sh', t, g, i)
  {
    match i
    case ConnSave(_, copy, _, _) => CopiesStable(sh, sh', g, copy);
    case ActSave(_, _, _, copy) => CopiesStable(sh, sh', g, copy);
    case ExpSave(p, todo, mark, copy, _) =>
      CopiesStable(sh, sh', g, copy);
      CoversStable(sh, sh', p, [g] + todo, mark);
    case _ =>
  }

  lemma MsgsStable(sh: Shared, sh': Shared, t: Tid, g: GameId, todo: seq<ConnId>, msgs: seq<Msg>)
    requires sh.chan.Keys <= sh'.chan.Keys && GameKept(sh, sh', g) && RowKnown(sh, g)
    requires MsgsOk(sh, t, g, todo, msgs)
    ensures MsgsOk(sh', t, g, todo, msgs)
  {
    RowStable(sh, sh', g);
  }

  lemma RowOkStable(sh: Shared, sh': Shared, t: Tid, g: GameId, i: InPc)
    requires OwnKept(sh, sh', t) && GameKept(sh, sh', g) && StaysIn(sh, sh', t, g)
    requires RowKnown(sh, g) && RowOk(sh, t, g, i)
    ensures RowOk(sh', t, g, i)
  {
    hide Covers, MsgsOk, RowKnown, PlayersKept, Live, RowIs, GameKept, ConnKept;
    RowStable(sh, sh', g);
    match i
    case ExpDetach(p, todo, mark, _, _, _) => CoversStable(sh, sh', p, todo, mark);
    case Sends(todo, msgs, _, _, _) => MsgsStable(sh, sh', t, g, todo, msgs);
    case _ =>
  }

  lemma LocalStable(sh: Shared, sh': Shared, t: Tid, g: GameId, i: InPc)
    requires OwnKept(sh, sh', t) && GameKept(sh, sh', g) && StaysIn(sh, sh', t, g)
    requires RowKnown(sh, g) && ReaderKnown(sh, t)
    requires Local(sh, t, g, i)
    ensures Local(sh', t, g, i)
  {
    hide OwnKept, GameKept, StaysIn, RowKnown, ReaderKnown, StartOk, CopyOk, RowOk, Starting, Copying;
    if Starting(i) && StartOk(sh, t, g, i) {
      StartStable(sh, sh', t, g, i);
    } else if Copying(i) && CopyOk(sh, t, g, i) {
      CopyStable(sh, sh', t, g, i);
    } else if RowOk(sh, t, g, i) {
      RowOkStable(sh, sh', t, g, i);
    }
  }

  lemma InformedStable(sh: Shared, sh': Shared, g: GameId, c: ConnId)
    requires GameKept(sh, sh', g) && sh.chan.Keys <= sh'.chan.Keys && (sh.Closing(c) ==> sh'.Closing(c))
    requires Informed(sh, g, c)
    ensures Informed(sh', g, c)
  {
  }

  lemma StaysThere(sh: Shared, sh': Shared, who: Option<Tid>, lock: Option<GameId>, t: Tid, g: GameId)
    requires Rely(sh, sh', who, lock) && lock != Some(g) && ReaderKnown(sh, t)
    ensures StaysIn(sh, sh', t, g)
  {
    hide PlayersKept, RowsKept, ChansKept, StaleKept;
  }

  /** What the locked game's connections have been told stays. */
  lemma ToldStable(sh: Shared, sh': Shared, t: Tid, g: GameId, i: InPc)
    requires GameKept(sh, sh', g) && sh.chan.Keys <= sh'.chan.Keys && (forall c :: sh.Closing(c) ==> sh'.Closing(c))
    requires ToldOk(sh, t, g, i)
    ensures ToldOk(sh', t, g, i)
  {
    hide Informed, Untold, RowKept, LastAbout, Shared.Closing;
    forall d | g !in sh.stale && d in sh.reg.Attached(g) && !Untold(t, i, d) ensures Informed(sh', g, d) {
      InformedStable(sh, sh', g, d);
    }
  }

  lemma OnwardStable(sh: Shared, sh': Shared, t: Tid, i: InPc)
    requires OwnKept(sh, sh', t) && OnwardOk(sh, t, i)
    ensures OnwardOk(sh', t, i)
  {
    hide OwnKept, OutOk, Onward;
    match Onward(i)
    case Some(o) => OutStable(sh, sh', t, o);
    case None =>
  }

  lemma InStable(sh: Shared, sh': Shared, who: Option<Tid>, lock: Option<GameId>, t: Tid, g: GameId, i: InPc)
    requires Rely(sh, sh', who, lock) && who != Some(t) && lock != Some(g) && RowKnown(sh, g) && ReaderKnown(sh, t)
    requires InOk(sh, t, g, i)
    ensures InOk(sh', t, g, i)
  {
    hide Local, ToldOk, OnwardOk, Live, RowKnown, ClosingUp, PlayersKept, RowsKept, RegKept, StaleKept,
        GameKept, ConnKept, StaysIn;
    Unlocked(sh, sh', who, lock, g);
    StaysThere(sh, sh', who, lock, t, g);
    OwnStable(sh, sh', who, lock, t);
    LocalStable(sh, sh', t, g, i);
    RowStable(sh, sh', g);
    OnwardStable(sh, sh', t, i);
    ToldStable(sh, sh', t, g, i);
  }

  lemma SettledStable(sh: Shared, sh': Shared, who: Option<Tid>, lock: Option<GameId>, g: GameId)
    requires Rely(sh, sh', who, lock) && lock != Some(g)
    requires Settled(sh, g)
    ensures Settled(sh', g)
  {
    hide Informed, PlayersKept, RowsKept, RegKept;
    Unlocked(sh, sh', who, lock, g);
    forall d | g !in sh.stale && d in sh.reg.Attached(g) ensures Informed(sh', g, d) {
      InformedStable(sh, sh', g, d);
    }
  }
}
