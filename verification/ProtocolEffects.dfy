/** Each kind of change to the shared state keeps what always holds, and stays within what the others rely on. */
module ProtocolEffects {
  import opened Wrappers
  import opened Rules
  import opened Store
  import opened Registry
  import opened Protocol
  import opened ProtocolInvariant
  import opened ProtocolRely

  // ----- What does not change is kept -----

  lemma StoreSame(sh: Shared, sh': Shared, lock: Option<GameId>)
    requires sh'.db == sh.db && sh'.used == sh.used && sh'.saves == sh.saves && sh'.seatings == sh.seatings
    ensures PlayersKept(sh, sh') && RowsKept(sh, sh', lock)
    ensures DbOk(sh) ==> DbOk(sh')
    ensures HistoriesOk(sh) ==> HistoriesOk(sh')
  {
  }

  lemma RegSame(sh: Shared, sh': Shared, who: Option<Tid>, lock: Option<GameId>)
    requires sh'.reg == sh.reg
    ensures RegKept(sh, sh', who, lock)
    ensures sh'.chan.Keys == sh.chan.Keys && sh.used <= sh'.used && RegOk(sh) ==> RegOk(sh')
    ensures sh'.db == sh.db && sh'.saves == sh.saves && SeatsHeld(sh) ==> SeatsHeld(sh')
  {
  }

  lemma ChansSame(sh: Shared, sh': Shared, lock: Option<GameId>)
    requires sh'.chan == sh.chan
    ensures ChansKept(sh, sh', lock)
    ensures sh'.saves == sh.saves && LogsOk(sh) ==> LogsOk(sh')
  {
    hide InCommitOrder;
  }

  lemma StaleSame(sh: Shared, sh': Shared, lock: Option<GameId>)
    requires sh'.stale == sh.stale
    ensures StaleKept(sh, sh', lock)
  {
  }

  // ----- Outbound channels -----

  /** Appending a message that is not about game g leaves the latest snapshot of g as it was. */
  lemma LastAboutPush(log: seq<Msg>, m: Msg, g: GameId)
    ensures LastAbout(log + [m], g) ==
            (if SnapOf(m).Some? && SnapOf(m).value.game == g then SnapOf(m) else LastAbout(log, g))
  {
    assert (log + [m])[..|log|] == log;
  }

  /** A new channel value for connection c: closing is for good, and only snapshots of game `lock` are added. */
  ghost predicate ChanMoved(before: Chan, after: Chan, lock: Option<GameId>) {
    && (before.closing.Some? ==> after.closing.Some?)
    && (forall g: GameId :: lock != Some(g) ==> LastAbout(after.log, g) == LastAbout(before.log, g))
  }

  lemma ChanKeeps(sh: Shared, c: ConnId, ch: Chan, who: Option<Tid>, lock: Option<GameId>)
    requires Global(sh) && c in sh.chan
    requires ChanMoved(sh.chan[c], ch, lock) && ChanOk(sh, ch)
    ensures Global(sh.(chan := sh.chan[c := ch]))
    ensures Rely(sh, sh.(chan := sh.chan[c := ch]), who, lock)
  {
    hide ChanMoved, ChanOk, RegOk, DbOk, SeatsHeld, LogsOk, HistoriesOk, PlayersKept, RowsKept, RegKept, ChansKept,
        StaleKept;
    var sh' := sh.(chan := sh.chan[c := ch]);
    StaleSame(sh, sh', lock);
    StoreSame(sh, sh', lock);
    RegSame(sh, sh', who, lock);
    ChanLogs(sh, sh', c);
    ChanChans(sh, c, ch, lock);
  }

  lemma ChanChans(sh: Shared, c: ConnId, ch: Chan, lock: Option<GameId>)
    requires c in sh.chan && ChanMoved(sh.chan[c], ch, lock)
    ensures ChansKept(sh, sh.(chan := sh.chan[c := ch]), lock)
  {
  }

  lemma ChanLogs(sh: Shared, sh': Shared, c: ConnId)
    requires LogsOk(sh) && sh'.saves == sh.saves
    requires c in sh'.chan && sh'.chan.Keys == sh.chan.Keys && ChanOk(sh, sh'.chan[c])
    requires forall d :: d in sh.chan && d != c ==> sh'.chan[d] == sh.chan[d]
    ensures LogsOk(sh')
  {
    hide InCommitOrder;
  }

  /** A message may be sent by anybody; a snapshot only under the lock of its game, and only if it is current. */
  ghost predicate Sendable(sh: Shared, m: Msg, lock: Option<GameId>) {
    SnapOf(m).Some? ==>
      var snap := SnapOf(m).value;
      lock == Some(snap.game) && RowIs(sh, snap.game, snap.Shows(), snap.version)
  }

  lemma SentMoves(sh: Shared, ch: Chan, m: Msg, lock: Option<GameId>)
    requires Sendable(sh, m, lock)
    ensures ChanMoved(ch, Send(ch, m), lock)
  {
    forall g: GameId ensures LastAbout(ch.log + [m], g) ==
        (if SnapOf(m).Some? && SnapOf(m).value.game == g then SnapOf(m) else LastAbout(ch.log, g)) {
      LastAboutPush(ch.log, m, g);
    }
  }

  /** The current snapshot is genuine, and later than every snapshot sent before. */
  lemma SentOk(sh: Shared, ch: Chan, m: Msg, lock: Option<GameId>)
    requires ChanOk(sh, ch) && DbOk(sh) && Sendable(sh, m, lock)
    ensures ChanOk(sh, Send(ch, m))
  {
    var log := ch.log + [m];
    assert SnapOf(m).Some? ==> Genuine(sh, SnapOf(m).value);
    forall i | 0 <= i < |log| && SnapOf(log[i]).Some? ensures Genuine(sh, SnapOf(log[i]).value) {
      assert i < |ch.log| ==> log[i] == ch.log[i];
    }
    forall i, j | 0 <= i < j < |log| && SnapOf(log[i]).Some? && SnapOf(log[j]).Some?
        && SnapOf(log[i]).value.game == SnapOf(log[j]).value.game
      ensures SnapOf(log[i]).value.version <= SnapOf(log[j]).value.version
    {
      assert log[i] == ch.log[i];
      assert Genuine(sh, SnapOf(log[i]).value);
    }
  }

  lemma SentKeeps(sh: Shared, c: ConnId, m: Msg, who: Option<Tid>, lock: Option<GameId>)
    requires Global(sh) && c in sh.chan && Sendable(sh, m, lock)
    ensures Global(sh.Sent(c, m))
    ensures Rely(sh, sh.Sent(c, m), who, lock)
  {
    LogOf(sh, c);
    hide Rely, ChanOk, ChanMoved, RegOk, DbOk, SeatsHeld, LogsOk, HistoriesOk, Sendable;
    SentMoves(sh, sh.chan[c], m, lock);
    SentOk(sh, sh.chan[c], m, lock);
    ChanKeeps(sh, c, Send(sh.chan[c], m), who, lock);
  }

  lemma LogOf(sh: Shared, c: ConnId)
    requires Global(sh) && c in sh.chan
    ensures ChanOk(sh, sh.chan[c])
  {
  }

  /** Sending the current snapshot informs the receiver. */
  lemma SentInforms(sh: Shared, c: ConnId, m: Msg, g: GameId)
    requires c in sh.chan && SnapOf(m).Some? && SnapOf(m).value.game == g
    requires g in sh.db.games && sh.db.games[g].state == SnapOf(m).value.Shows()
    ensures Informed(sh.Sent(c, m), g, c)
  {
    LastAboutPush(sh.chan[c].log, m, g);
  }

  /** Sending anything else, or to somebody else, leaves the informed informed. */
  lemma SentKeepsInformed(sh: Shared, c: ConnId, m: Msg, g: GameId, d: ConnId)
    requires Informed(sh, g, d)
    requires SnapOf(m).Some? && SnapOf(m).value.game == g ==>
               g in sh.db.games && sh.db.games[g].state == SnapOf(m).value.Shows()
    ensures Informed(sh.Sent(c, m), g, d)
  {
    if c in sh.chan {
      LastAboutPush(sh.chan[c].log, m, g);
    }
  }

  /** Changing only the bookkeeping of a channel keeps its log as it was. */
  lemma SameLogKeeps(sh: Shared, c: ConnId, ch: Chan, who: Option<Tid>, lock: Option<GameId>)
    requires Global(sh) && c in sh.chan
    requires ch.log == sh.chan[c].log && sh.chan[c].taken <= ch.taken <= |ch.log|
    requires sh.chan[c].closing.Some? ==> ch.closing.Some?
    ensures Global(sh.(chan := sh.chan[c := ch]))
    ensures Rely(sh, sh.(chan := sh.chan[c := ch]), who, lock)
  {
    LogOf(sh, c);
    assert ChanMoved(sh.chan[c], ch, lock);
    SameLogOk(sh, sh.chan[c], ch);
    hide Global, Rely, ChanOk, ChanMoved;
    ChanKeeps(sh, c, ch, who, lock);
  }

  lemma SameLogOk(sh: Shared, before: Chan, after: Chan)
    requires ChanOk(sh, before) && after.log == before.log && before.taken <= after.taken <= |after.log|
    ensures ChanOk(sh, after)
  {
  }

  lemma ClosedKeeps(sh: Shared, c: ConnId, code: int, who: Option<Tid>, lock: Option<GameId>)
    requires Global(sh) && c in sh.chan
    ensures Global(sh.Closed(c, code))
    ensures Rely(sh, sh.Closed(c, code), who, lock)
    ensures sh.Closed(c, code).Closing(c)
  {
    LogOf(sh, c);
    hide Global, Rely;
    SameLogKeeps(sh, c, Close(sh.chan[c], code), who, lock);
  }

  lemma AskedKeeps(sh: Shared, c: ConnId, rid: RequestId, who: Option<Tid>, lock: Option<GameId>)
    requires Global(sh) && c in sh.chan
    ensures Global(sh.Asked(c, rid))
    ensures Rely(sh, sh.Asked(c, rid), who, lock)
  {
    LogOf(sh, c);
    hide Global, Rely;
    SameLogKeeps(sh, c, sh.chan[c].(asked := sh.chan[c].asked + [rid]), who, lock);
  }

  // ----- The registry -----

  lemma RegKeeps(sh: Shared, reg: Reg<ConnId>, who: Option<Tid>, lock: Option<GameId>)
    requires Global(sh) && RegKept(sh, sh.(reg := reg), who, lock)
    requires RegOk(sh.(reg := reg)) && SeatsHeld(sh.(reg := reg))
    ensures Global(sh.(reg := reg))
    ensures Rely(sh, sh.(reg := reg), who, lock)
  {
    hide RegOk, DbOk, SeatsHeld, LogsOk, HistoriesOk, PlayersKept, RowsKept, RegKept, ChansKept, StaleKept;
    StoreSame(sh, sh.(reg := reg), lock);
    ChansSame(sh, sh.(reg := reg), lock);
    StaleSame(sh, sh.(reg := reg), lock);
  }

  lemma BindKeeps(sh: Shared, c: ConnId, p: PlayerId)
    requires Global(sh) && c in sh.chan && sh.PlayerOn(c).None? && p in sh.used
    ensures Global(sh.(reg := Bind(sh.reg, c, p)))
    ensures Rely(sh, sh.(reg := Bind(sh.reg, c, p)), Some(Reader(c)), None)
  {
    hide RegOk, DbOk, SeatsHeld, LogsOk, HistoriesOk, PlayersKept, RowsKept, RegKept, ChansKept, StaleKept;
    BindMoves(sh, c, p);
    RegKeeps(sh, Bind(sh.reg, c, p), Some(Reader(c)), None);
  }

  lemma BindMoves(sh: Shared, c: ConnId, p: PlayerId)
    requires RegOk(sh) && SeatsHeld(sh) && c in sh.chan && sh.PlayerOn(c).None? && p in sh.used
    ensures RegKept(sh, sh.(reg := Bind(sh.reg, c, p)), Some(Reader(c)), None)
    ensures RegOk(sh.(reg := Bind(sh.reg, c, p))) && SeatsHeld(sh.(reg := Bind(sh.reg, c, p)))
  {
    BindAgrees(sh.reg, c, p);
  }

  lemma ForgetKeeps(sh: Shared, c: ConnId)
    requires Global(sh) && c in sh.chan
    ensures Global(sh.(reg := Forget(sh.reg, c)))
    ensures Rely(sh, sh.(reg := Forget(sh.reg, c)), Some(Reader(c)), None)
  {
    hide RegOk, DbOk, SeatsHeld, LogsOk, HistoriesOk, PlayersKept, RowsKept, RegKept, ChansKept, StaleKept;
    ForgetMoves(sh, c);
    RegKeeps(sh, Forget(sh.reg, c), Some(Reader(c)), None);
  }

  lemma ForgetMoves(sh: Shared, c: ConnId)
    requires RegOk(sh) && SeatsHeld(sh) && c in sh.chan
    ensures RegKept(sh, sh.(reg := Forget(sh.reg, c)), Some(Reader(c)), None)
    ensures RegOk(sh.(reg := Forget(sh.reg, c))) && SeatsHeld(sh.(reg := Forget(sh.reg, c)))
  {
    ForgetAgrees(sh.reg, c);
  }

  /** Detaching some connections of game g moves nothing else. */
  lemma DetachingMoves(sh: Shared, reg: Reg<ConnId>, g: GameId, cs: set<ConnId>, who: Option<Tid>)
    requires reg.link.Keys == sh.reg.link.Keys
    requires reg.players == sh.reg.players && reg.conns == sh.reg.conns
    requires forall h: GameId :: h != g ==> reg.Attached(h) == sh.reg.Attached(h)
    requires forall c :: c in sh.reg.link ==>
               reg.link[c] == (if c in cs then sh.reg.link[c].(place := Nowhere) else sh.reg.link[c])
    requires forall c :: c in cs ==> c in sh.reg.link && (sh.Place(c) == Nowhere || sh.Place(c).In(g))
    ensures RegKept(sh, sh.(reg := reg), who, Some(g))
    ensures RegOk(sh) && reg.Agrees() ==> RegOk(sh.(reg := reg))
    ensures SeatsHeld(sh) ==> SeatsHeld(sh.(reg := reg))
  {
    forall c | c in sh.reg.link ensures sh.(reg := reg).PlayerOn(c) == sh.PlayerOn(c) {
      assert reg.link[c].player == sh.reg.link[c].player;
    }
  }

  lemma AttachMoves(sh: Shared, c: ConnId, g: GameId, seat: Seat)
    requires RegOk(sh)
    requires c in sh.chan && Here(sh, g, c)
    ensures RegKept(sh, sh.(reg := Attach(sh.reg, c, g, seat)), Some(Reader(c)), Some(g))
    ensures RegOk(sh.(reg := Attach(sh.reg, c, g, seat)))
  {
    AttachAgrees(sh.reg, c, g, seat);
  }

  /** Connection c, authenticated as the player of this seat of game g, is in no other game. */
  ghost predicate MaySit(sh: Shared, c: ConnId, g: GameId, seat: Seat) {
    && Here(sh, g, c) && sh.PlayerOn(c).Some? && g in sh.saves
    && (g in sh.db.games && sh.PlayerOn(c).value in sh.db.players ==>
          sh.db.games[g].PlayerOf(seat) == sh.PlayerOn(c))
  }

  lemma AttachSeats(sh: Shared, c: ConnId, g: GameId, seat: Seat)
    requires SeatsHeld(sh) && c in sh.reg.link && MaySit(sh, c, g, seat)
    ensures SeatsHeld(sh.(reg := Attach(sh.reg, c, g, seat)))
  {
  }

  lemma AttachKeeps(sh: Shared, c: ConnId, g: GameId, seat: Seat)
    requires Global(sh) && c in sh.chan && MaySit(sh, c, g, seat)
    ensures Global(sh.(reg := Attach(sh.reg, c, g, seat)))
    ensures Rely(sh, sh.(reg := Attach(sh.reg, c, g, seat)), Some(Reader(c)), Some(g))
  {
    hide DbOk, SeatsHeld, LogsOk, HistoriesOk, PlayersKept, RowsKept, RegKept, ChansKept, StaleKept;
    AttachMoves(sh, c, g, seat);
    AttachSeats(sh, c, g, seat);
    RegKeeps(sh, Attach(sh.reg, c, g, seat), Some(Reader(c)), Some(g));
  }

  lemma DetachKeeps(sh: Shared, c: ConnId, g: GameId, who: Option<Tid>)
    requires Global(sh) && c in sh.chan && Here(sh, g, c)
    ensures Global(sh.(reg := Detach(sh.reg, c)))
    ensures Rely(sh, sh.(reg := Detach(sh.reg, c)), who, Some(g))
    ensures sh.(reg := Detach(sh.reg, c)).Place(c) == Nowhere
  {
    DetachAgrees(sh.reg, c);
    forall h: GameId | h != g ensures Detach(sh.reg, c).Attached(h) == sh.reg.Attached(h) {
      assert sh.reg.link[c].place.In(h) <==> c in sh.reg.Attached(h);
    }
    DetachingMoves(sh, Detach(sh.reg, c), g, {c}, who);
    RegKeeps(sh, Detach(sh.reg, c), who, Some(g));
  }

  lemma DetachSetKeeps(sh: Shared, g: GameId, cs: set<ConnId>, who: Option<Tid>)
    requires Global(sh) && cs <= sh.reg.Attached(g)
    ensures Global(sh.(reg := DetachSet(sh.reg, g, cs)))
    ensures Rely(sh, sh.(reg := DetachSet(sh.reg, g, cs)), who, Some(g))
  {
    DetachSetAgrees(sh.reg, g, cs);
    forall c | c in cs ensures c in sh.reg.link && sh.Place(c).In(g) {
      assert c in sh.reg.link;
      assert sh.reg.link[c].place.In(g) <==> c in sh.reg.Attached(g);
    }
    DetachingMoves(sh, DetachSet(sh.reg, g, cs), g, cs, who);
    RegKeeps(sh, DetachSet(sh.reg, g, cs), who, Some(g));
  }
}
