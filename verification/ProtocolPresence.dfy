/**
 * Whom a client shows as connected: the last snapshot of its game, and who came and went since. That is right as long
 * as no connection leaves a seat in which another live connection still sits.
 */
module ProtocolPresence {
  import opened Wrappers
  import opened Timestamps
  import opened Rules
  import opened Store
  import opened Registry
  import opened Snapshots
  import opened Protocol
  import opened ProtocolReached
  import opened ProtocolDoes
  import opened ProtocolLocks
  import opened ProtocolInvariant
  import opened ProtocolRely
  import opened ProtocolEffects
  import opened ProtocolStoreEffects
  import opened ProtocolBody
  import opened ProtocolNext
  import opened ProtocolSafety
  import opened ProtocolTheorems

  // ----- What a client shows -----

  function Heeds(shown: set<Seat>, m: Msg, g: GameId): set<Seat> {
    match m
    case StateIs(s) => if s.game == g then s.view.connected else shown
    case Direct(_, OkConnected(s)) => if s.game == g then s.view.connected else shown
    case OpponentConnected(seat) => shown + {seat}
    case OpponentDisconnected(seat) => shown - {seat}
    case _ => shown
  }

  /** The seats of game g that a client shows as connected after some messages. */
  function Shown(log: seq<Msg>, g: GameId): set<Seat> {
    if log == [] then {} else Heeds(Shown(log[..|log| - 1], g), log[|log| - 1], g)
  }

  lemma ShownAppended(log: seq<Msg>, m: Msg, g: GameId)
    ensures Shown(log + [m], g) == Heeds(Shown(log, g), m, g)
  {
    assert (log + [m])[..|log|] == log;
  }

  function ShownTo(sh: Shared, c: ConnId, g: GameId): set<Seat> {
    Shown(sh.Log(c), g)
  }

  /** A live connection sits there. */
  ghost predicate Online(sh: Shared, g: GameId, seat: Seat) {
    exists e :: e in sh.reg.Attached(g) && sh.Place(e) == At(g, seat) && !sh.Closing(e)
  }

  /** A connection sits there, which may be closing. */
  ghost predicate Filled(sh: Shared, g: GameId, seat: Seat) {
    exists e :: e in sh.reg.Attached(g) && sh.Place(e) == At(g, seat)
  }

  /** Every seat with a live connection is shown, and only seats with a connection are. */
  ghost predicate Fits(shown: set<Seat>, sh: Shared, g: GameId) {
    forall seat: Seat :: (Online(sh, g, seat) ==> seat in shown) && (seat in shown ==> Filled(sh, g, seat))
  }

  /** Sending and closing may take connections offline, and nothing else. */
  lemma QuieterFits(shown: set<Seat>, sh: Shared, sh': Shared, g: GameId)
    requires Fits(shown, sh, g) && sh'.reg.Attached(g) == sh.reg.Attached(g)
    requires forall e :: e in sh.reg.Attached(g) ==> sh'.Place(e) == sh.Place(e) && (sh.Closing(e) ==> sh'.Closing(e))
    ensures Fits(shown, sh', g)
  {
    forall seat: Seat ensures (Online(sh', g, seat) ==> seat in shown) && (seat in shown ==> Filled(sh', g, seat)) {
      if Online(sh', g, seat) {
        var e :| e in sh'.reg.Attached(g) && sh'.Place(e) == At(g, seat) && !sh'.Closing(e);
        assert e in sh.reg.Attached(g) && sh.Place(e) == At(g, seat) && !sh.Closing(e);
        assert Online(sh, g, seat);
      }
      if seat in shown {
        assert Filled(sh, g, seat);
        var e :| e in sh.reg.Attached(g) && sh.Place(e) == At(g, seat);
        assert e in sh'.reg.Attached(g) && sh'.Place(e) == At(g, seat);
      }
    }
  }

  lemma SameFits(shown: set<Seat>, sh: Shared, sh': Shared, g: GameId)
    requires sh'.reg == sh.reg && sh'.chan == sh.chan && Fits(shown, sh, g)
    ensures Fits(shown, sh', g)
  {
    hide Fits;
    QuieterFits(shown, sh, sh', g);
  }

  // ----- Views -----

  /** The players of the attached connections are stored. */
  ghost predicate StoredThere(sh: Shared, g: GameId) {
    forall e :: e in sh.reg.Attached(g) ==> IsStored(sh, sh.PlayerOn(e))
  }

  predicate IsStored(sh: Shared, player: Option<PlayerId>) {
    match player
    case Some(p) => p in sh.db.players
    case None => false
  }

  /** Nobody plays game g against itself. */
  ghost predicate Differ(sh: Shared, g: GameId) {
    match Get(sh.db.games, g)
    case Some(row) => row.host.Some? ==> row.host != row.guest
    case None => true
  }

  /** A saved row still has the players that the stored one has. */
  ghost predicate RowSeats(sh: Shared, g: GameId, row: Game) {
    match Get(sh.db.games, g)
    case Some(stored) => SeatCopied(sh, stored.host, row.host) && SeatCopied(sh, stored.guest, row.guest)
    case None => false
  }

  lemma SitsWhere(sh: Shared, g: GameId, row: Game, e: ConnId, seat: Seat)
    requires Global(sh) && StoredThere(sh, g) && Differ(sh, g) && RowSeats(sh, g, row) && e in sh.reg.Attached(g)
    ensures SitsAt(sh.reg, e, row, seat) <==> sh.Place(e) == At(g, seat)
  {
    hide DbOk, LogsOk, HistoriesOk;
    assert IsStored(sh, sh.PlayerOn(e));
    assert e in sh.reg.link && sh.Place(e).In(g);
  }

  /** The view of a row shows exactly the seats with a live connection. */
  lemma ViewFits(sh: Shared, g: GameId, row: Game)
    requires Global(sh) && StoredThere(sh, g) && Differ(sh, g) && RowSeats(sh, g, row)
    ensures forall seat: Seat :: seat in sh.View(g, row).connected <==> Online(sh, g, seat)
    ensures Fits(sh.View(g, row).connected, sh, g)
  {
    hide Global, StoredThere, Differ, RowSeats, SitsAt;
    forall seat: Seat ensures seat in sh.View(g, row).connected <==> Online(sh, g, seat) {
      forall e | e in sh.reg.Attached(g) ensures SitsAt(sh.reg, e, row, seat) <==> sh.Place(e) == At(g, seat) {
        SitsWhere(sh, g, row, e, seat);
      }
      assert seat.Host? || seat.Guest?;
    }
  }

  // ----- Who plays -----

  /** The step leaves a connection attached to game g whose player is not stored. */
  ghost predicate Strands(w: World, e: Event, g: GameId) {
    match Does(w, e)
    case Remove(p) => exists c :: c in w.sh.reg.Attached(g) && w.sh.PlayerOn(c) == Some(p)
    case Sit(c, h, _) => h == g && !IsStored(w.sh, w.sh.PlayerOn(c))
    case _ => false
  }

  lemma DoStored(sh: Shared, who: Option<Tid>, lock: Option<GameId>, e: Effect, g: GameId)
    requires Global(sh) && Allowed(sh, who, lock, e) && StoredThere(sh, g)
    requires match e
      case Remove(p) => forall c :: c in sh.reg.Attached(g) ==> sh.PlayerOn(c) != Some(p)
      case Sit(c, h, _) => h == g ==> IsStored(sh, sh.PlayerOn(c))
      case _ => true
    ensures StoredThere(Do(sh, e), g)
  {
    hide Global, StoredThere, Allowed, Do;
    if Registers(e) {
      DoRegisters(sh, who, lock, e, g);
    } else {
      DoStores(sh, e, g);
    }
  }

  /** Effects on the registry alone. */
  predicate Registers(e: Effect) {
    e.Enter? || e.Drop? || e.Sit? || e.Rise? || e.Clear? || e.Meet?
  }

  /** Nobody but who sits down comes into a game. */
  lemma DoAttached(sh: Shared, e: Effect, g: GameId)
    requires Registers(e)
    ensures Do(sh, e).reg.Attached(g) <= sh.reg.Attached(g) + (match e case Sit(c, _, _) => {c} case _ => {})
    ensures match e case Sit(c, h, _) => h != g ==> Do(sh, e).reg.Attached(g) == sh.reg.Attached(g) case _ => true
    ensures Do(sh, e).db == sh.db
  {
    match e
    case Rise(c) => DetachLeaves(sh.reg, c, g);
    case _ =>
  }

  /** Nobody but who authenticates, or has just come, is on another player. */
  lemma DoPlayer(sh: Shared, e: Effect, c: ConnId)
    requires Registers(e) && c in sh.reg.link
    ensures match e
      case Enter(d, _) => c != d ==> Do(sh, e).PlayerOn(c) == sh.PlayerOn(c)
      case Meet(d) => c != d ==> Do(sh, e).PlayerOn(c) == sh.PlayerOn(c)
      case _ => Do(sh, e).PlayerOn(c) == sh.PlayerOn(c)
  {
  }

  lemma DoRegisters(sh: Shared, who: Option<Tid>, lock: Option<GameId>, e: Effect, g: GameId)
    requires Global(sh) && Allowed(sh, who, lock, e) && StoredThere(sh, g) && Registers(e)
    requires match e case Sit(c, h, _) => h == g ==> IsStored(sh, sh.PlayerOn(c)) case _ => true
    ensures StoredThere(Do(sh, e), g)
  {
    hide DbOk, SeatsHeld, LogsOk, HistoriesOk, SaveOk, MaySit, Sendable, Do, Shared.PlayerOn;
    DoAttached(sh, e, g);
    forall c | c in Do(sh, e).reg.Attached(g) ensures IsStored(Do(sh, e), Do(sh, e).PlayerOn(c)) {
      assert c in sh.reg.Attached(g) ==> c in sh.reg.link;
      DoPlayer(sh, e, c);
    }
  }

  lemma DoStores(sh: Shared, e: Effect, g: GameId)
    requires StoredThere(sh, g) && !Registers(e)
    requires match e case Remove(p) => forall c :: c in sh.reg.Attached(g) ==> sh.PlayerOn(c) != Some(p) case _ => true
    ensures StoredThere(Do(sh, e), g)
  {
    hide Bind, Forget, Attach, Detach, DetachSet, AddConn, Send, Close;
  }

  lemma DoDiffer(sh: Shared, who: Option<Tid>, lock: Option<GameId>, e: Effect, g: GameId)
    requires Global(sh) && Allowed(sh, who, lock, e) && Differ(sh, g)
    ensures Differ(Do(sh, e), g)
  {
    hide RegOk, SeatsHeld, LogsOk, HistoriesOk, MaySit, Sendable, Apply;
    if !e.Save? && !e.Remove? && !e.Found? && !e.Discard? {
      DoGames(sh, e);
      hide Do;
    }
  }

  lemma DoGames(sh: Shared, e: Effect)
    requires !e.Save? && !e.Remove? && !e.Found? && !e.Discard?
    ensures Do(sh, e).db.games == sh.db.games
  {
    hide Bind, Forget, Attach, Detach, DetachSet, AddConn, Send, Close;
  }

  // ----- News of other games -----

  /** A message that is neither a snapshot nor about coming and going. */
  predicate Neutral(m: Msg) {
    SnapOf(m).None? && !News(m)
  }

  predicate News(m: Msg) {
    m.OpponentConnected? || m.OpponentDisconnected?
  }

  predicate CarriesNews(msgs: seq<Msg>) {
    exists j :: 0 <= j < |msgs| && News(msgs[j])
  }

  /** Whoever is about to be told who came or went is attached to the game. */
  ghost predicate NewsOk(sh: Shared, g: GameId, i: InPc) {
    match i
    case Sends(todo, msgs, _, _, k) =>
      && (CarriesNews(msgs) ==> forall d :: d in todo ==> d in sh.reg.Attached(g))
      && (match k case ThenTell(e, _, _) => Neutral(e) case _ => true)
    case Tell(e, _, _) => Neutral(e)
    case _ => true
  }

  ghost predicate AllNewsOk(w: World) {
    forall t, g :: IsInside(w, t, g) ==> NewsOk(w.sh, g, w.Phase(t).Doing())
  }

  lemma ListingNews(sh: Shared, t: Tid, g: GameId, sv: Serving, i: InPc, ch: Choice)
    requires (i.ConnList? || i.DetachCheck?) && ListsConns(sh, t, g, i, ch)
    ensures var to := Body(sh, t, g, sv, i, ch); NewsOk(to.sh, g, to.pc)
  {
    hide Detach, CarriesNews;
    match i
    case DetachCheck(d, _, _) => DetachLeaves(sh.reg, d, g);
    case _ =>
  }

  lemma DetachLeaves(r: Reg<ConnId>, d: ConnId, g: GameId)
    ensures r.Attached(g) - {d} <= Detach(r, d).Attached(g) <= r.Attached(g)
    ensures r.LinkOf(d).place.In(g) ==> Detach(r, d).Attached(g) == r.Attached(g) - {d}
    ensures forall e :: Detach(r, d).LinkOf(e).place == if e == d then Nowhere else r.LinkOf(e).place
  {
  }

  lemma SendsNews(sh: Shared, t: Tid, g: GameId, sv: Serving, i: InPc, ch: Choice)
    requires i.Sends? && NewsOk(sh, g, i)
    ensures var to := Body(sh, t, g, sv, i, ch); NewsOk(to.sh, g, to.pc)
  {
    hide CarriesNews, Neutral, Rendered;
  }

  lemma OtherNews(sh: Shared, t: Tid, g: GameId, sv: Serving, i: InPc, ch: Choice)
    requires !i.Sends? && !i.ConnList? && !i.DetachCheck? && !i.LeaveLock? && NewsOk(sh, g, i)
    ensures var to := Body(sh, t, g, sv, i, ch); NewsOk(to.sh, g, to.pc)
  {
    hide Saved, Load, JoinGame, Apply, After, Before, AttemptOf, Attach, Detach, DetachSet, DeleteGame, Shared.View,
        Shared.SeatsIn, Shared.Closed;
  }

  lemma BodyNews(sh: Shared, t: Tid, g: GameId, sv: Serving, i: InPc, ch: Choice)
    requires !i.LeaveLock? && NewsOk(sh, g, i) && ListsConns(sh, t, g, i, ch)
    ensures var to := Body(sh, t, g, sv, i, ch); NewsOk(to.sh, g, to.pc)
  {
    hide *;
    if i.Sends? {
      SendsNews(sh, t, g, sv, i, ch);
    } else if i.ConnList? || i.DetachCheck? {
      ListingNews(sh, t, g, sv, i, ch);
    } else {
      OtherNews(sh, t, g, sv, i, ch);
    }
  }

  /** Another goroutine's step leaves everybody attached who is attached. */
  lemma NewsStays(sh: Shared, sh': Shared, g: GameId, i: InPc)
    requires sh'.reg.Attached(g) == sh.reg.Attached(g) && NewsOk(sh, g, i)
    ensures NewsOk(sh', g, i)
  {
    hide CarriesNews;
  }

  lemma StartNews(sh: Shared, t: Tid, g: GameId, i: InPc)
    requires Starting(i)
    ensures NewsOk(sh, g, i)
  {
  }

  /** What a goroutine does under a lock after a step of its own. */
  lemma OwnNews(w: World, t: Tid, ch: Choice, g: GameId)
    requires Inv(w) && CanRun(w, t, ch) && AllNewsOk(w) && IsInside(RunThread(w, t, ch), t, g)
    ensures NewsOk(RunThread(w, t, ch).sh, g, RunThread(w, t, ch).Phase(t).Doing())
  {
    hide LockInv, Global, Justified, Free, Body, NewsOk, ListsConns, CanPass, StartOk, InOk, OutOk;
    PhaseOf(w, t);
    match w.Phase(t)
    case Waiting(h, _, i) =>
      StartsPlain(w.sh, t, h, i);
      StartNews(w.sh, t, h, i);
    case Inside(h, _, i) =>
      assert IsInside(w, t, h);
      BodyNews(w.sh, t, h, w.Served(t), i, ch);
    case _ =>
  }

  lemma StepNews(w: World, e: Event)
    requires Inv(w) && Enabled(w, e) && AllNewsOk(w)
    ensures AllNewsOk(Step(w, e))
  {
    hide LockInv, Global, Justified, NewsOk, RunThread, Environment, Rely, CanPass, ListsConns;
    match e
    case Go(t, ch) =>
      RunThreads(w, t, ch);
      forall s, g | IsInside(Step(w, e), s, g) ensures NewsOk(Step(w, e).sh, g, Step(w, e).Phase(s).Doing()) {
        if s == t {
          OwnNews(w, t, ch, g);
        } else {
          assert IsInside(w, s, g);
          if IsInside(w, t, g) {
            OneInside(w, s, t, g);
          }
          AttachedKept(w, e, g);
          NewsStays(w.sh, Step(w, e).sh, g, w.Phase(s).Doing());
        }
      }
    case _ =>
      EnvironmentOf(w, e);
      SameInside(w, Step(w, e));
      forall s, g | IsInside(Step(w, e), s, g) ensures NewsOk(Step(w, e).sh, g, Step(w, e).Phase(s).Doing()) {
        assert IsInside(w, s, g);
        AttachedKept(w, e, g);
        NewsStays(w.sh, Step(w, e).sh, g, w.Phase(s).Doing());
      }
  }

  // ----- What is about to be shown -----

  /** What a client shows once it has been told the rest of some messages. */
  function Heard(shown: set<Seat>, msgs: seq<Msg>, from: nat, g: GameId): set<Seat>
    decreases |msgs| - from
  {
    if from >= |msgs| then shown else Heard(Heeds(shown, msgs[from], g), msgs, from + 1, g)
  }

  function HeardAll(shown: set<Seat>, msgs: seq<Msg>, g: GameId): set<Seat> {
    Heard(shown, msgs, 0, g)
  }

  predicate IsSnapOf(m: Msg, g: GameId, connected: set<Seat>) {
    match SnapOf(m)
    case Some(snap) => snap.game == g && snap.view.connected == connected
    case None => false
  }

  lemma HeardOne(shown: set<Seat>, m: Msg, g: GameId)
    ensures HeardAll(shown, [m], g) == Heeds(shown, m, g)
  {
    assert Heard(Heeds(shown, m, g), [m], 1, g) == Heeds(shown, m, g);
  }

  lemma HeardEvent(shown: set<Seat>, e: Msg, m: Msg, g: GameId, connected: set<Seat>)
    requires IsSnapOf(m, g, connected)
    ensures HeardAll(shown, [e, m], g) == connected
  {
    var after := Heeds(shown, e, g);
    assert Heard(Heeds(after, m, g), [e, m], 2, g) == Heeds(after, m, g);
    assert Heard(after, [e, m], 1, g) == Heeds(after, m, g);
  }

  predicate Concerned(sh: Shared, g: GameId, c: ConnId) {
    c in sh.reg.Attached(g) && !sh.Closing(c) && g !in sh.stale
  }

  /** What client c shows fits. */
  ghost predicate Right(sh: Shared, g: GameId, c: ConnId) {
    Concerned(sh, g, c) ==> Fits(ShownTo(sh, c, g), sh, g)
  }

  /** What client c shows fits, or will once it has been told what is about to be sent. */
  ghost predicate Due(sh: Shared, t: Tid, g: GameId, i: InPc, c: ConnId) {
    Concerned(sh, g, c) && !ClosingUp(i) ==>
      match i
      case ConnView(_, _, _, _, was) => was ==> Fits(ShownTo(sh, c, g), sh, g)
      case ConnList(_, _, _) => t == Reader(c) ==> Fits(ShownTo(sh, c, g), sh, g)
      case Sends(todo, msgs, _, next, k) =>
        if c in todo then Fits(Heard(ShownTo(sh, c, g), msgs, if c == todo[0] then next else 0, g), sh, g)
        else (k.ThenConnList? && t != Reader(c)) || Fits(ShownTo(sh, c, g), sh, g)
      case _ => Fits(ShownTo(sh, c, g), sh, g)
  }

  ghost predicate Distinct(todo: seq<ConnId>) {
    forall a, b :: 0 <= a < b < |todo| ==> todo[a] != todo[b]
  }

  ghost predicate SnapsFit(msgs: seq<Msg>, sh: Shared, g: GameId) {
    forall m, snap :: m in msgs && SnapOf(m) == Some(snap) ==> snap.game == g && Fits(snap.view.connected, sh, g)
  }

  ghost predicate ThenFits(sh: Shared, g: GameId, k: Then) {
    match k
    case ThenConnList(_, view, _) => Fits(view.connected, sh, g)
    case ThenTell(_, row, _) => RowSeats(sh, g, row)
    case ThenBroadcast(row, _) => RowSeats(sh, g, row)
    case _ => true
  }

  /** Loaded rows still have their players, and views fit. */
  ghost predicate ViewsFit(sh: Shared, g: GameId, i: InPc) {
    match i
    case ConnAttach(_, row, _, _) => RowSeats(sh, g, row)
    case ConnView(_, row, _, _, _) => RowSeats(sh, g, row)
    case ConnList(_, view, _) => Fits(view.connected, sh, g)
    case Tell(_, row, _) => RowSeats(sh, g, row)
    case CastView(row, _) => RowSeats(sh, g, row)
    case CastList(view, _) => Fits(view.connected, sh, g)
    case Sends(todo, msgs, _, _, k) =>
      Distinct(todo) && (sh.reg.Attached(g) != {} ==> SnapsFit(msgs, sh, g)) && ThenFits(sh, g, k)
    case _ => true
  }

  ghost predicate DueIn(sh: Shared, t: Tid, g: GameId, i: InPc, c: ConnId) {
    Due(sh, t, g, i, c) && ViewsFit(sh, g, i)
  }

  /** Control states in which nobody is still to be told anything, and nothing has been loaded. */
  predicate Plain(i: InPc) {
    || Starting(i) || i.ConnSave? || i.ActLoad? || i.ActSave? || i.ExpSave? || i.GameDetach? || i.GameClose?
    || i.GameDelete? || i.LeaveLock?
  }

  lemma PlainDue(sh: Shared, t: Tid, g: GameId, i: InPc, c: ConnId)
    requires Plain(i)
    ensures DueIn(sh, t, g, i, c) <==> Right(sh, g, c)
  {
    hide Fits, ShownTo;
  }

  /** What is right stays right while neither the registry nor any channel changes. */
  lemma SameRight(sh: Shared, sh': Shared, g: GameId, c: ConnId)
    requires sh'.reg == sh.reg && sh'.chan == sh.chan && (g in sh.stale ==> g in sh'.stale) && Right(sh, g, c)
    ensures Right(sh', g, c)
  {
    hide Fits;
    if Concerned(sh', g, c) {
      SameFits(ShownTo(sh, c, g), sh, sh', g);
    }
  }

  lemma StaleDue(sh: Shared, t: Tid, g: GameId, i: InPc, c: ConnId)
    requires Plain(i) && g in sh.stale
    ensures DueIn(sh, t, g, i, c)
  {
    hide Fits, ShownTo;
  }

  lemma EmptyDue(sh: Shared, t: Tid, g: GameId, i: InPc, c: ConnId)
    requires sh.reg.Attached(g) == {} && Plain(i)
    ensures DueIn(sh, t, g, i, c)
  {
    hide Fits, ShownTo;
  }

  // ----- Steps under the lock -----

  lemma SavedSeats(sh: Shared, sh': Shared, g: GameId, row: Game, commit: Commit)
    requires SaveDone(sh, sh', g, row, commit)
    ensures RowSeats(sh', g, row) && sh'.reg == sh.reg && sh'.chan == sh.chan && sh'.stale == sh.stale
  {
  }

  /** Saving changes nothing that is shown. */
  lemma ConnSaveDue(sh: Shared, sh': Shared, t: Tid, g: GameId, seat: Seat, row: Game, joined: bool, commit: Commit,
                    c: ConnId)
    requires Right(sh, g, c) && SaveDone(sh, sh', g, row, commit)
    ensures DueIn(sh', t, g, ConnAttach(seat, row, sh'.Version(g), joined), c)
  {
    hide Fits, SaveDone, RowSeats, ShownTo;
    SavedSeats(sh, sh', g, row, commit);
    SameRight(sh, sh', g, c);
  }

  lemma ActSaveDue(sh: Shared, sh': Shared, t: Tid, g: GameId, a: Action, seat: Seat, row: Game, commit: Commit,
                   rid: RequestId, c: ConnId)
    requires Right(sh, g, c) && SaveDone(sh, sh', g, row, commit)
    ensures DueIn(sh', t, g, ActDetach(seat, row, sh'.Version(g)), c)
    ensures DueIn(sh', t, g, SendAll([t.Mine()], [Direct(rid, Ok)], map[], AfterOk(a, seat, row, sh'.Version(g))), c)
  {
    hide Fits, SaveDone, RowSeats, Heard;
    SavedSeats(sh, sh', g, row, commit);
    SameRight(sh, sh', g, c);
    HeardOne(ShownTo(sh', c, g), Direct(rid, Ok), g);
    hide ShownTo;
  }

  /** Attaching a connection for the first time leaves everybody to be told; returning to its seat changes nothing. */
  lemma AttachDue(sh: Shared, t: Tid, g: GameId, seat: Seat, row: Game, v: nat, joined: bool, c: ConnId)
    requires Global(sh) && StoredThere(sh, g) && Differ(sh, g) && Local(sh, t, g, ConnAttach(seat, row, v, joined))
    requires DueIn(sh, t, g, ConnAttach(seat, row, v, joined), c)
    ensures DueIn(sh.(reg := Attach(sh.reg, t.Mine(), g, seat)), t, g,
        ConnView(seat, row, v, joined, sh.Place(t.Mine()).In(g)), c)
  {
    hide Fits, Shown, LogsOk, HistoriesOk, StartOk, RowOk, Attach;
    if sh.Place(t.Mine()).In(g) {
      assert t.Mine() in sh.reg.Attached(g) && IsStored(sh, sh.PlayerOn(t.Mine()));
      assert sh.Place(t.Mine()) == At(g, seat);
      Reattached(sh.reg, t.Mine(), g, seat);
    }
  }

  lemma Reattached(r: Reg<ConnId>, d: ConnId, g: GameId, seat: Seat)
    requires r.Agrees() && d in r.link && r.LinkOf(d).place == At(g, seat)
    ensures Attach(r, d, g, seat) == r
  {
    assert d in r.Attached(g);
    assert r.games[g] + {d} == r.games[g];
    assert r.link[d].(place := At(g, seat)) == r.link[d];
  }

  /** A view that could be built fits, and who is sent it will show it. */
  lemma ViewDue(sh: Shared, t: Tid, g: GameId, seat: Seat, row: Game, v: nat, joined: bool, was: bool, rid: RequestId,
                c: ConnId)
    requires Global(sh) && StoredThere(sh, g) && Differ(sh, g)
        && DueIn(sh, t, g, ConnView(seat, row, v, joined, was), c)
    ensures
      var k := if was then ThenLeave(Idle) else ThenConnList(seat, sh.View(g, row), v);
      DueIn(sh, t, g, SendAll([t.Mine()], [Direct(rid, OkConnected(Snap(g, v, sh.View(g, row), seat)))], map[], k), c)
  {
    hide Global, StoredThere, Differ, Fits, Shown, RowSeats, Shared.View, Heard;
    ViewFits(sh, g, row);
    HeardOne(ShownTo(sh, c, g), Direct(rid, OkConnected(Snap(g, v, sh.View(g, row), seat))), g);
    hide ShownTo;
  }

  lemma CastDue(sh: Shared, t: Tid, g: GameId, row: Game, v: nat, c: ConnId)
    requires Global(sh) && StoredThere(sh, g) && Differ(sh, g) && DueIn(sh, t, g, CastView(row, v), c)
    ensures DueIn(sh, t, g, CastList(sh.View(g, row), v), c)
  {
    hide Global, StoredThere, Differ, Fits, ShownTo, RowSeats, Shared.View;
    ViewFits(sh, g, row);
  }

  lemma ConnListDue(sh: Shared, t: Tid, g: GameId, seat: Seat, view: GameView, v: nat, conns: seq<ConnId>, c: ConnId)
    requires DueIn(sh, t, g, ConnList(seat, view, v), c) && Lists(conns, sh.reg.Attached(g) - {t.Mine()}) && t.Reader?
    ensures DueIn(sh, t, g,
        SendAll(conns, [OpponentConnected(seat), StateIs(Snap(g, v, view, seat.Other()))], map[], ThenLeave(Idle)), c)
  {
    hide Fits, ShownTo, Heard;
    HeardEvent(ShownTo(sh, c, g), OpponentConnected(seat), StateIs(Snap(g, v, view, seat.Other())), g, view.connected);
  }

  lemma TellDue(sh: Shared, t: Tid, g: GameId, e: Msg, row: Game, v: nat, conns: seq<ConnId>, c: ConnId)
    requires DueIn(sh, t, g, Tell(e, row, v), c) && Lists(conns, sh.reg.Attached(g) - {t.Mine()}) && Neutral(e)
    ensures DueIn(sh, t, g, SendAll(conns, [e], map[], ThenBroadcast(row, v)), c)
  {
    hide Fits, ShownTo, Heard, RowSeats;
    HeardOne(ShownTo(sh, c, g), e, g);
  }

  lemma CastListDue(sh: Shared, t: Tid, g: GameId, view: GameView, v: nat, conns: seq<ConnId>, seats: map<ConnId, Seat>,
                    c: ConnId)
    requires DueIn(sh, t, g, CastList(view, v), c) && Lists(conns, sh.reg.Attached(g))
    ensures DueIn(sh.(stale := sh.stale - {g}), t, g,
        SendAll(conns, [StateIs(Snap(g, v, view, Host))], seats, ThenLeave(Idle)), c)
  {
    hide Fits, ShownTo, Heard;
    var sh' := sh.(stale := sh.stale - {g});
    HeardOne(ShownTo(sh', c, g), StateIs(Snap(g, v, view, Host)), g);
    SameFits(view.connected, sh, sh', g);
  }

  /** A connection is detached from a seat in which another live one sits. */
  ghost predicate Beside(sh: Shared, g: GameId, d: ConnId) {
    sh.Place(d).In(g) && exists e :: e != d && e in sh.reg.Attached(g) && sh.Place(e) == sh.Place(d) && !sh.Closing(e)
  }

  /** Without the seat of a connection that leaves it empty, what was shown fits again. */
  lemma GoingFits(shown: set<Seat>, sh: Shared, g: GameId, d: ConnId, seat: Seat)
    requires Fits(shown, sh, g) && sh.Place(d) == At(g, seat) && !Beside(sh, g, d)
    ensures Fits(shown - {seat}, sh.(reg := Detach(sh.reg, d)), g)
  {
    DetachLeaves(sh.reg, d, g);
    var sh', left := sh.(reg := Detach(sh.reg, d)), shown - {seat};
    forall s: Seat ensures (Online(sh', g, s) ==> s in left) && (s in left ==> Filled(sh', g, s)) {
      if Online(sh', g, s) {
        var e :| e in sh'.reg.Attached(g) && sh'.Place(e) == At(g, s) && !sh'.Closing(e);
        assert e in sh.reg.Attached(g) && sh.Place(e) == At(g, s) && !sh.Closing(e) && e != d;
        assert Online(sh, g, s);
      }
      if s in left {
        assert Filled(sh, g, s);
        var e :| e in sh.reg.Attached(g) && sh.Place(e) == At(g, s);
        assert e != d && e in sh'.reg.Attached(g) && sh'.Place(e) == At(g, s);
      }
    }
  }

  lemma DetachDue(sh: Shared, t: Tid, g: GameId, d: ConnId, seat: Seat, o: OutPc, conns: seq<ConnId>, c: ConnId)
    requires Right(sh, g, c) && !Beside(sh, g, d) && sh.Place(d) == At(g, seat)
    requires Lists(conns, sh.reg.Attached(g) - {d})
    ensures DueIn(sh.(reg := Detach(sh.reg, d)), t, g,
        SendAll(conns, [OpponentDisconnected(seat)], map[], ThenLeave(o)), c)
  {
    hide Fits, Shown, Beside, Detach, Heard;
    DetachLeaves(sh.reg, d, g);
    HeardOne(ShownTo(sh, c, g), OpponentDisconnected(seat), g);
    if Concerned(sh, g, c) {
      GoingFits(ShownTo(sh, c, g), sh, g, d, seat);
    }
  }

  /** The next message reaches its receiver, unless that is closing, and may take it offline. */
  lemma SentShown(sh: Shared, d: ConnId, m: Msg, c: ConnId, g: GameId)
    ensures c != d ==> ShownTo(sh.Sent(d, m), c, g) == ShownTo(sh, c, g)
    ensures c == d && d in sh.chan && !sh.Sent(d, m).Closing(d) ==>
        ShownTo(sh.Sent(d, m), d, g) == Heeds(ShownTo(sh, d, g), m, g)
    ensures sh.Sent(d, m).reg == sh.reg && sh.Sent(d, m).stale == sh.stale
    ensures sh.Sent(d, m).db == sh.db && sh.Sent(d, m).used == sh.used
    ensures forall e :: sh.Closing(e) ==> sh.Sent(d, m).Closing(e)
  {
    hide Shown;
    ShownAppended(sh.Log(d), m, g);
  }

  lemma RenderedHeeds(m: Msg, seats: map<ConnId, Seat>, d: ConnId, shown: set<Seat>, g: GameId)
    ensures Heeds(shown, Rendered(m, seats, d), g) == Heeds(shown, m, g)
  {
  }

  lemma SendingDue(sh: Shared, t: Tid, g: GameId, i: InPc, todo: seq<ConnId>, msgs: seq<Msg>, seats: map<ConnId, Seat>,
                   next: nat, k: Then, sv: Serving, c: ConnId)
    requires i == Sends(todo, msgs, seats, next, k) && todo != [] && next < |msgs| && Distinct(todo)
    requires (forall d :: d in todo ==> d in sh.chan) && Due(sh, t, g, i, c)
    ensures var to := SendNext(sh, todo, msgs, seats, next, k, sv); Due(to.sh, t, g, to.pc, c)
  {
    hide ShownTo, Rendered, Shared.Sent, Fits, Heeds;
    var d, m := todo[0], Rendered(msgs[next], seats, todo[0]);
    var sh', shown := sh.Sent(d, m), ShownTo(sh, c, g);
    SentShown(sh, d, m, c, g);
    RenderedHeeds(msgs[next], seats, d, shown, g);
    assert Heard(Heeds(shown, msgs[next], g), msgs, next + 1, g) == Heard(shown, msgs, next, g);
    forall s: set<Seat> | Fits(s, sh, g) ensures Fits(s, sh', g) {
      QuieterFits(s, sh, sh', g);
    }
  }

  lemma SendingViews(sh: Shared, t: Tid, g: GameId, todo: seq<ConnId>, msgs: seq<Msg>, seats: map<ConnId, Seat>,
                     next: nat, k: Then, sv: Serving)
    requires ViewsFit(sh, g, Sends(todo, msgs, seats, next, k)) && todo != [] && next < |msgs|
    ensures var to := SendNext(sh, todo, msgs, seats, next, k, sv); ViewsFit(to.sh, g, to.pc)
  {
    hide Fits, Rendered, Shared.Sent;
    var d, m := todo[0], Rendered(msgs[next], seats, todo[0]);
    SentShown(sh, d, m, d, g);
    forall s: set<Seat> | Fits(s, sh, g) ensures Fits(s, sh.Sent(d, m), g) {
      QuieterFits(s, sh, sh.Sent(d, m), g);
    }
  }

  lemma SendsDue(sh: Shared, t: Tid, g: GameId, todo: seq<ConnId>, msgs: seq<Msg>, seats: map<ConnId, Seat>, next: nat,
                 k: Then, sv: Serving, c: ConnId)
    requires DueIn(sh, t, g, Sends(todo, msgs, seats, next, k), c) && MsgsOk(sh, t, g, todo, msgs) && next < |msgs|
    ensures var to := SendNext(sh, todo, msgs, seats, next, k, sv); DueIn(to.sh, t, g, to.pc, c)
  {
    hide Fits, ShownTo, RowSeats, Heard, SnapsFit, Rendered;
    if todo != [] {
      hide Due, ViewsFit, SendNext;
      assert Distinct(todo) by {
        NobodyTwice(sh, g, todo, msgs, seats, next, k);
      }
      SendingDue(sh, t, g, Sends(todo, msgs, seats, next, k), todo, msgs, seats, next, k, sv, c);
      SendingViews(sh, t, g, todo, msgs, seats, next, k, sv);
    }
  }

  lemma NobodyTwice(sh: Shared, g: GameId, todo: seq<ConnId>, msgs: seq<Msg>, seats: map<ConnId, Seat>, next: nat,
      k: Then)
    requires ViewsFit(sh, g, Sends(todo, msgs, seats, next, k))
    ensures Distinct(todo)
  {
  }

  lemma ConnectingDue(sh: Shared, t: Tid, g: GameId, sv: Serving, i: InPc, ch: Choice, c: ConnId)
    requires Global(sh) && StoredThere(sh, g) && Differ(sh, g) && Local(sh, t, g, i) && ListsConns(sh, t, g, i, ch)
    requires DueIn(sh, t, g, i, c) && t.Reader?
    requires i.ConnReload? || i.ConnSave? || i.ConnAttach? || i.ConnView? || i.ConnList?
    ensures var to := Body(sh, t, g, sv, i, ch); DueIn(to.sh, t, g, to.pc, c)
  {
    hide Saved, Load, Seating, Apply, After, Attach, Detach, DetachSet, DeleteGame, Before, AfterOk, Resumed, AttemptOf,
        Following, Final, SendNext, Shared.View, Shared.SeatsIn, Shared.Closed, Lists, Global, Local, DueIn, Right,
        StoredThere, Differ, Live, Fits, NewsOk, Beside;
    var to := Body(sh, t, g, sv, i, ch);
    match i
    case ConnReload(p, digest) =>
      PlainDue(sh, t, g, i, c);
      ReloadPlain(sh, g, p, digest, ch.fail);
      PlainDue(sh, t, g, to.pc, c);
    case ConnSave(p, copy, seat, joined) =>
      var row, commit := copy.(lastActive := ch.now), if joined then Changed(Join) else Reconnected;
      PlainDue(sh, t, g, i, c);
      match Saved(sh, g, row, Some(p), commit, ch) {
        case None => PlainDue(sh, t, g, to.pc, c);
        case Some(saved) =>
          CopyLive(sh, t, g, i);
          SavedDone(sh, g, row, Some(p), commit, ch, saved);
          ConnSaveDue(sh, to.sh, t, g, seat, row, joined, commit, c);
          SameVersion(saved, g, p);
      }
    case ConnAttach(seat, row, v, joined) => AttachDue(sh, t, g, seat, row, v, joined, c);
    case ConnView(seat, row, v, joined, was) =>
      ViewDue(sh, t, g, seat, row, v, joined, was, sv.rid, c);
      StaleDue(sh.(stale := sh.stale + {g}), t, g, LeaveLock(SendErr(Internal)), c);
    case ConnList(seat, view, v) => ConnListDue(sh, t, g, seat, view, v, ch.conns, c);
  }

  lemma SameVersion(sh: Shared, g: GameId, p: PlayerId)
    ensures sh.SeatTaken(p).Version(g) == sh.Version(g)
  {
  }

  lemma ReloadPlain(sh: Shared, g: GameId, p: PlayerId, digest: Digest, fail: bool)
    ensures match Load(sh, g, digest, fail)
      case Success(row) => (match Seating(row, p) case Success(next) => next.ConnSave? case Failure(_) => true)
      case Failure(_) => true
  {
  }

  lemma ActingDue(sh: Shared, t: Tid, g: GameId, sv: Serving, i: InPc, ch: Choice, c: ConnId)
    requires Global(sh) && Local(sh, t, g, i) && NewsOk(sh, g, i) && ListsConns(sh, t, g, i, ch)
    requires DueIn(sh, t, g, i, c) && t.Reader?
    requires i.ActCheck? || i.ActLoad? || i.ActSave? || i.ActDetach? || i.Tell?
    ensures var to := Body(sh, t, g, sv, i, ch); DueIn(to.sh, t, g, to.pc, c)
  {
    hide Saved, Load, Seating, Apply, After, Attach, Detach, DetachSet, DeleteGame, Before, AfterOk, Resumed, AttemptOf,
        Following, Final, SendNext, Shared.View, Shared.SeatsIn, Shared.Closed, Lists, Global, Local, DueIn, Right,
        StoredThere, Differ, Live, Fits;
    var to := Body(sh, t, g, sv, i, ch);
    match i
    case ActSave(a, seat, p, copy) =>
      var row, commit := copy.(lastActive := ch.now), Changed(AttemptOf(a, seat));
      PlainDue(sh, t, g, i, c);
      match Saved(sh, g, row, Some(p), commit, ch) {
        case None => PlainDue(sh, t, g, to.pc, c);
        case Some(saved) =>
          CopyLive(sh, t, g, i);
          SavedDone(sh, g, row, Some(p), commit, ch, saved);
          ActSaveDue(sh, saved, t, g, a, seat, row, commit, sv.rid, c);
      }
    case ActDetach(seat, row, v) => ClosingSends(to.sh, t, g, [t.Mine()], [Direct(sv.rid, Ok)], PlayerLeft, seat, row,
        v, c);
    case Tell(e, row, v) => TellDue(sh, t, g, e, row, v, ch.conns, c);
    case _ =>
      PlainDue(sh, t, g, i, c);
      PlainDue(sh, t, g, to.pc, c);
  }

  /** While a game is being closed, nothing is due to anybody. */
  lemma ClosingSends(sh: Shared, t: Tid, g: GameId, todo: seq<ConnId>, msgs: seq<Msg>, reason: Reason, side: Seat,
                     row: Game, v: nat, c: ConnId)
    requires Distinct(todo) && forall m :: m in msgs ==> SnapOf(m).None?
    ensures DueIn(sh, t, g, SendAll(todo, msgs, map[], ThenClose(reason, side, row, v, Idle)), c)
  {
    hide Fits, ShownTo;
  }

  lemma ClosingDue(sh: Shared, t: Tid, g: GameId, i: InPc, c: ConnId)
    requires i.CloseView? || i.CloseList? || i.ExpDetach?
    ensures DueIn(sh, t, g, i, c)
  {
    hide Fits, ShownTo;
  }

  lemma TellingDue(sh: Shared, t: Tid, g: GameId, sv: Serving, i: InPc, ch: Choice, c: ConnId)
    requires Global(sh) && StoredThere(sh, g) && Differ(sh, g) && Local(sh, t, g, i) && ListsConns(sh, t, g, i, ch)
    requires DueIn(sh, t, g, i, c) && (match i case DetachCheck(d, _, _) => !Beside(sh, g, d) case _ => true)
    requires i.CastView? || i.CastList? || i.CloseView? || i.CloseList? || i.Sends? || i.DetachCheck?
    ensures var to := Body(sh, t, g, sv, i, ch); DueIn(to.sh, t, g, to.pc, c)
  {
    hide Saved, Load, Seating, Apply, After, Attach, Detach, DetachSet, DeleteGame, Before, AfterOk, Resumed, AttemptOf,
        Following, Final, SendNext, Shared.View, Shared.SeatsIn, Shared.Closed, Global, Local, DueIn, Right,
        StoredThere, Differ, Live, Fits, NewsOk, Beside;
    var to := Body(sh, t, g, sv, i, ch);
    match i
    case CastView(row, v) =>
      CastDue(sh, t, g, row, v, c);
      StaleDue(sh.(stale := sh.stale + {g}), t, g, LeaveLock(Idle), c);
    case CastList(view, v) => CastListDue(sh, t, g, view, v, ch.conns, sh.SeatsIn(g), c);
    case CloseView(_, _, _, _, _) => ClosingDue(sh, t, g, to.pc, c);
    case CloseList(reason, side, row, v, viewed, o) =>
      NoneAttached(sh, g);
      EmptySends(to.sh, t, g, ch.conns, [GameOver(reason, side)] + Final(g, v, viewed), sh.SeatsIn(g), o, c);
    case Sends(todo, msgs, seats, next, k) =>
      SendsOf(sh, t, g, todo, msgs, seats, next, k);
      SendsDue(sh, t, g, todo, msgs, seats, next, k, sv, c);
    case DetachCheck(d, tries, k) =>
      PlainDue(sh, t, g, i, c);
      match sh.Place(d) {
        case At(h, seat) =>
          if h == g {
            DetachDue(sh, t, g, d, seat, Resumed(k), ch.conns, c);
          } else {
            PlainDue(sh, t, g, to.pc, c);
          }
        case Nowhere => PlainDue(sh, t, g, to.pc, c);
      }
  }

  lemma EmptySends(sh: Shared, t: Tid, g: GameId, todo: seq<ConnId>, msgs: seq<Msg>, seats: map<ConnId, Seat>, o: OutPc,
                   c: ConnId)
    requires sh.reg.Attached(g) == {} && Distinct(todo)
    ensures DueIn(sh, t, g, SendAll(todo, msgs, seats, ThenLeave(o)), c)
  {
    hide Fits, ShownTo;
  }

  lemma ExpiringDue(sh: Shared, t: Tid, g: GameId, sv: Serving, i: InPc, ch: Choice, c: ConnId)
    requires Local(sh, t, g, i) && DueIn(sh, t, g, i, c) && ListsConns(sh, t, g, i, ch)
    requires i.ExpReload? || i.ExpSave? || i.ExpDetach? || i.GameLoad? || i.GameDetach? || i.GameClose? || i.GameDelete?
    ensures var to := Body(sh, t, g, sv, i, ch); DueIn(to.sh, t, g, to.pc, c)
  {
    hide SaveGame, Load, Seating, Apply, After, Attach, Detach, DetachSet, DeleteGame, Before, AfterOk, Resumed,
        AttemptOf,
        Following, Final, SendNext, Shared.View, Shared.SeatsIn, Shared.Closed, Lists, Global, Local, DueIn, Right,
        StoredThere, Differ, Live, Fits, NewsOk, Beside;
    var to := Body(sh, t, g, sv, i, ch);
    match i
    case ExpDetach(_, _, _, _, _, _) => ClosingDue(to.sh, t, g, to.pc, c);
    case ExpSave(_, _, _, _, _) =>
      PlainDue(sh, t, g, i, c);
      if to.pc.ExpDetach? {
        ClosingDue(to.sh, t, g, to.pc, c);
      } else {
        PlainDue(sh, t, g, to.pc, c);
      }
    case GameDetach =>
      NoneAttached(sh, g);
      EmptyDue(to.sh, t, g, to.pc, c);
    case GameClose(todo) =>
      EmptyOf(sh, t, g, i);
      if todo != [] {
        ClosedSame(sh, todo[0], CLOSE_GAME_EXPIRED);
      }
      EmptyDue(to.sh, t, g, to.pc, c);
    case GameDelete =>
      EmptyOf(sh, t, g, i);
      EmptyDue(to.sh, t, g, to.pc, c);
    case _ =>
      PlainDue(sh, t, g, i, c);
      PlainDue(sh, t, g, to.pc, c);
  }

  lemma EmptyOf(sh: Shared, t: Tid, g: GameId, i: InPc)
    requires Local(sh, t, g, i) && (i.GameClose? || i.GameDelete?)
    ensures sh.reg.Attached(g) == {}
  {
    hide StartOk, CopyOk;
  }

  lemma BodyDue(sh: Shared, t: Tid, g: GameId, sv: Serving, i: InPc, ch: Choice, c: ConnId)
    requires Global(sh) && StoredThere(sh, g) && Differ(sh, g) && Local(sh, t, g, i) && NewsOk(sh, g, i)
        && !i.LeaveLock?
    requires ListsConns(sh, t, g, i, ch) && DueIn(sh, t, g, i, c)
    requires match i case DetachCheck(d, _, _) => !Beside(sh, g, d) case _ => true
    ensures var to := Body(sh, t, g, sv, i, ch); DueIn(to.sh, t, g, to.pc, c)
  {
    hide *;
    ReaderOnly(sh, t, g, i);
    if i.ConnReload? || i.ConnSave? || i.ConnAttach? || i.ConnView? || i.ConnList? {
      ConnectingDue(sh, t, g, sv, i, ch, c);
    } else if i.ActCheck? || i.ActLoad? || i.ActSave? || i.ActDetach? || i.Tell? {
      ActingDue(sh, t, g, sv, i, ch, c);
    } else if i.CastView? || i.CastList? || i.CloseView? || i.CloseList? || i.Sends? || i.DetachCheck? {
      TellingDue(sh, t, g, sv, i, ch, c);
    } else {
      ExpiringDue(sh, t, g, sv, i, ch, c);
    }
  }

  // ----- Steps elsewhere -----

  /** What a step that does not hold the lock of game g leaves of it. */
  ghost predicate Away(sh: Shared, sh': Shared, g: GameId, c: ConnId) {
    && sh'.reg.Attached(g) == sh.reg.Attached(g) && (g in sh.stale ==> g in sh'.stale)
    && (forall e :: e in sh.reg.Attached(g) ==> sh'.Place(e) == sh.Place(e))
    && (forall e :: sh.Closing(e) ==> sh'.Closing(e))
    && (c in sh.reg.Attached(g) && !sh'.Closing(c) ==> ShownTo(sh', c, g) == ShownTo(sh, c, g))
    && (forall row: Game :: RowSeats(sh, g, row) ==> RowSeats(sh', g, row))
  }

  lemma AwayFits(sh: Shared, sh': Shared, g: GameId, c: ConnId)
    requires Away(sh, sh', g, c)
    ensures forall shown: set<Seat> :: Fits(shown, sh, g) ==> Fits(shown, sh', g)
  {
    hide RowSeats, Fits, ShownTo;
    forall shown: set<Seat> | Fits(shown, sh, g) ensures Fits(shown, sh', g) {
      QuieterFits(shown, sh, sh', g);
    }
  }

  lemma RightAway(sh: Shared, sh': Shared, g: GameId, c: ConnId)
    requires Away(sh, sh', g, c) && Right(sh, g, c)
    ensures Right(sh', g, c)
  {
    hide RowSeats, Fits, ShownTo;
    AwayFits(sh, sh', g, c);
  }

  /** Nothing that others do touches what the holder of the lock is doing. */
  lemma DueStays(sh: Shared, sh': Shared, t: Tid, g: GameId, i: InPc, c: ConnId)
    requires Away(sh, sh', g, c) && DueIn(sh, t, g, i, c)
    ensures DueIn(sh', t, g, i, c)
  {
    hide RowSeats, Fits, ShownTo, Heard;
    AwayFits(sh, sh', g, c);
  }

  lemma AwayByRely(sh: Shared, sh': Shared, who: Option<Tid>, lock: Option<GameId>, g: GameId, c: ConnId)
    requires Global(sh) && Rely(sh, sh', who, lock) && lock != Some(g)
    requires c in sh.reg.Attached(g) && !sh'.Closing(c) ==> ShownTo(sh', c, g) == ShownTo(sh, c, g)
    ensures Away(sh, sh', g, c)
  {
    hide Rely, Global, ShownTo, RowSeats;
    RowsAway(sh, sh', who, lock, g);
    PlacesAway(sh, sh', who, lock, g);
  }

  lemma RowsAway(sh: Shared, sh': Shared, who: Option<Tid>, lock: Option<GameId>, g: GameId)
    requires Global(sh) && Rely(sh, sh', who, lock) && lock != Some(g)
    ensures forall row: Game :: RowSeats(sh, g, row) ==> RowSeats(sh', g, row)
  {
    hide RegOk, SeatsHeld, LogsOk, HistoriesOk, RegKept, ChansKept, StaleKept;
  }

  lemma PlacesAway(sh: Shared, sh': Shared, who: Option<Tid>, lock: Option<GameId>, g: GameId)
    requires Global(sh) && Rely(sh, sh', who, lock) && lock != Some(g)
    ensures sh'.reg.Attached(g) == sh.reg.Attached(g) && (g in sh.stale ==> g in sh'.stale)
    ensures forall e :: e in sh.reg.Attached(g) ==> sh'.Place(e) == sh.Place(e)
    ensures forall e :: sh.Closing(e) ==> sh'.Closing(e)
  {
    hide DbOk, SeatsHeld, LogsOk, HistoriesOk, PlayersKept, RowsKept;
    forall e | e in sh.reg.Attached(g) ensures sh'.Place(e) == sh.Place(e) {
      assert e in sh.reg.link && sh.Place(e).In(g);
    }
  }

  /** A message that changes nothing that is shown of game g. */
  predicate Elsewhere(m: Msg, g: GameId) {
    !News(m) && (match SnapOf(m) case Some(snap) => snap.game != g case None => true)
  }

  lemma DoShown(sh: Shared, e: Effect, g: GameId, c: ConnId)
    requires match e case Say(d, m) => d == c ==> Elsewhere(m, g) case Meet(d) => d !in sh.chan case _ => true
    ensures ShownTo(Do(sh, e), c, g) == ShownTo(sh, c, g)
  {
    hide Shown, Bind, Forget, Attach, Detach, DetachSet, AddConn, TouchPlayer, DeletePlayer, DeleteGame, SaveGame,
        CreateGame;
    match e
    case Say(d, m) =>
      ShownAppended(sh.Log(d), m, g);
    case _ =>
  }

  /** Outside locks, and under the lock of another game, nobody attached to game g is told anything about it. */
  lemma SaysElsewhere(w: World, e: Event, g: GameId, c: ConnId)
    requires Inv(w) && AllNewsOk(w) && Enabled(w, e) && Holding(w, e) != Some(g) && c in w.sh.reg.Attached(g)
    ensures match Does(w, e) case Say(d, m) => d == c ==> Elsewhere(m, g) case Meet(d) => d !in w.sh.chan case _ => true
  {
    hide LockInv, Justified, DbOk, SeatsHeld, LogsOk, HistoriesOk, NewsOk, ListsConns, ListsGames, Local, FreeDoes,
        BodyDoes, Elsewhere;
    match e
    case Go(t, ch) =>
      match w.Phase(t) {
        case Out(o) => FreeSaysElsewhere(w.sh, t, w.Served(t), o, ch, g);
        case Inside(h, _, i) =>
          assert IsInside(w, t, h);
          BodyOf(w, t, ch);
          InOneGame(w.sh, c, g, h);
          SendsElsewhere(w.sh, t, h, i, ch, g, c);
        case _ =>
      }
    case _ =>
  }

  lemma FreeSaysElsewhere(sh: Shared, t: Tid, sv: Serving, o: OutPc, ch: Choice, g: GameId)
    ensures match FreeDoes(sh, t, sv, o, ch) case Say(_, m) => Elsewhere(m, g) case Meet(_) => false case _ => true
  {
  }

  lemma SendsElsewhere(sh: Shared, t: Tid, h: GameId, i: InPc, ch: Choice, g: GameId, c: ConnId)
    requires Local(sh, t, h, i) && NewsOk(sh, h, i) && h != g && c !in sh.reg.Attached(h)
    ensures match BodyDoes(sh, t, h, i, ch) case Say(d, m) => d == c
        ==> Elsewhere(m, g) case Meet(_) => false case _ => true
  {
    hide Local, NewsOk, Elsewhere, Rendered;
    match i
    case Sends(todo, msgs, seats, next, k) =>
      SendsOf(sh, t, h, todo, msgs, seats, next, k);
      if todo != [] && todo[0] == c {
        NextElsewhere(sh, t, h, todo, msgs, seats, next, k, g);
      }
    case _ =>
  }

  lemma NextElsewhere(sh: Shared, t: Tid, h: GameId, todo: seq<ConnId>, msgs: seq<Msg>, seats: map<ConnId, Seat>,
                      next: nat, k: Then, g: GameId)
    requires MsgsOk(sh, t, h, todo, msgs) && NewsOk(sh, h, Sends(todo, msgs, seats, next, k))
    requires h != g && next < |msgs| && todo != [] && todo[0] !in sh.reg.Attached(h)
    ensures Elsewhere(Rendered(msgs[next], seats, todo[0]), g)
  {
    hide RowIs;
    RenderedSame(msgs[next], seats, todo[0]);
    assert News(msgs[next]) ==> CarriesNews(msgs);
  }

  lemma InOneGame(sh: Shared, c: ConnId, g: GameId, h: GameId)
    requires RegOk(sh) && c in sh.reg.Attached(g) && h != g
    ensures c !in sh.reg.Attached(h)
  {
    assert c in sh.reg.link && (sh.reg.link[c].place.In(g) <==> c in sh.reg.Attached(g));
    assert sh.reg.link[c].place.In(h) <==> c in sh.reg.Attached(h);
  }

  lemma StepAway(w: World, e: Event, g: GameId, c: ConnId)
    requires Inv(w) && AllNewsOk(w) && Enabled(w, e) && Holding(w, e) != Some(g)
    ensures Away(w.sh, Step(w, e).sh, g, c)
  {
    hide LockInv, Justified, Global, AllNewsOk, Enabled, Step, Does, Do, Rely, Away, ShownTo;
    StepRely(w, e);
    StepDo(w, e);
    if c in w.sh.reg.Attached(g) {
      SaysElsewhere(w, e, g, c);
      DoShown(w.sh, Does(w, e), g, c);
    }
    AwayByRely(w.sh, Step(w, e).sh, Mover(e), Holding(w, e), g, c);
  }

  // ----- Every step -----

  /** What connection c shows of game g fits, or will once the holder of the lock has told it. */
  ghost predicate AllDue(w: World, g: GameId, c: ConnId) {
    && (LockFree(w, g) ==> Right(w.sh, g, c))
    && (forall t :: IsInside(w, t, g) ==> DueIn(w.sh, t, g, w.Phase(t).Doing(), c))
  }

  /** What the step does, a connection is detached from a seat in which another live one sits. */
  ghost predicate LeavesBeside(w: World, e: Event, g: GameId) {
    match e
    case Go(t, _) => IsInside(w, t, g)
        && (match w.Phase(t).Doing() case DetachCheck(d, _, _) => Beside(w.sh, g, d) case _ => false)
    case _ => false
  }

  /** Somebody else steps, or the rest of the program does. */
  lemma AwayDue(w: World, e: Event, g: GameId, c: ConnId)
    requires Inv(w) && AllNewsOk(w) && Enabled(w, e) && AllDue(w, g, c) && Holding(w, e) != Some(g)
    requires forall s :: IsInside(Step(w, e), s, g) <==> IsInside(w, s, g)
    requires forall s :: IsInside(w, s, g) ==> Step(w, e).On(s) == w.On(s)
    ensures AllDue(Step(w, e), g, c)
  {
    hide Inv, AllNewsOk, Enabled, Step, Away, DueIn, Right;
    StepAway(w, e, g, c);
    if LockFree(w, g) {
      RightAway(w.sh, Step(w, e).sh, g, c);
    }
    forall s | IsInside(w, s, g) ensures DueIn(Step(w, e).sh, s, g, w.Phase(s).Doing(), c) {
      DueStays(w.sh, Step(w, e).sh, s, g, w.Phase(s).Doing(), c);
    }
  }

  /** A goroutine takes the lock. */
  lemma TakenDue(w: World, t: Tid, ch: Choice, g: GameId, c: ConnId)
    requires Inv(w) && CanRun(w, t, ch) && AllDue(w, g, c) && w.Phase(t).Waiting? && w.Phase(t).InGame() == g
    ensures AllDue(RunThread(w, t, ch), g, c)
  {
    hide LockInv, Global, Justified, DueIn, Right, StartOk, InOk, OutOk, ListsGames, ListsConns;
    RunThreads(w, t, ch);
    PhaseOf(w, t);
    FreeToTake(w, t, ch);
    StartsPlain(w.sh, t, g, w.Phase(t).Doing());
    PlainDue(w.sh, t, g, w.Phase(t).Doing(), c);
    assert IsInside(RunThread(w, t, ch), t, g);
    forall s | IsInside(RunThread(w, t, ch), s, g) ensures s == t {
      assert !IsInside(w, s, g);
    }
  }

  /** The holder of the lock works on, or gives the lock up. */
  lemma HolderDue(w: World, t: Tid, ch: Choice, g: GameId, c: ConnId)
    requires Inv(w) && AllNewsOk(w) && CanRun(w, t, ch) && AllDue(w, g, c) && IsInside(w, t, g)
    requires StoredThere(w.sh, g) && Differ(w.sh, g) && !LeavesBeside(w, Go(t, ch), g)
    ensures AllDue(RunThread(w, t, ch), g, c)
  {
    hide LockInv, Justified, Body, ListsConns, DueIn, Right, NewsOk, StoredThere, Differ, Beside, Rely, Global, Local;
    var w', i := RunThread(w, t, ch), w.Phase(t).Doing();
    RunThreads(w, t, ch);
    BodyOf(w, t, ch);
    if i.LeaveLock? {
      PlainDue(w.sh, t, g, i, c);
    } else {
      HoldsGlobal(w);
      BodyDue(w.sh, t, g, w.Served(t), i, ch, c);
      assert IsInside(w', t, g);
    }
    forall s | IsInside(w', s, g) ensures s == t && !i.LeaveLock? {
      if s != t {
        assert IsInside(w, s, g);
        OneInside(w, s, t, g);
      }
    }
  }

  lemma HoldsGlobal(w: World)
    requires Inv(w)
    ensures Global(w.sh)
  {
    hide LockInv, Global, Justified;
  }

  lemma StepDue(w: World, e: Event, g: GameId, c: ConnId)
    requires Inv(w) && AllNewsOk(w) && Enabled(w, e) && AllDue(w, g, c)
    requires StoredThere(w.sh, g) && Differ(w.sh, g) && !LeavesBeside(w, e, g)
    ensures AllDue(Step(w, e), g, c)
  {
    hide LockInv, Global, Justified, AllNewsOk, AllDue, StoredThere, Differ, LeavesBeside, CanPass, ListsConns, Rely,
        Environment, Free, Body;
    match e
    case Go(t, ch) =>
      RunThreads(w, t, ch);
      if IsInside(w, t, g) {
        HolderDue(w, t, ch, g, c);
      } else if w.Phase(t).Waiting? && w.Phase(t).InGame() == g {
        TakenDue(w, t, ch, g, c);
      } else {
        AwayDue(w, e, g, c);
      }
    case _ =>
      EnvironmentOf(w, e);
      SameInside(w, Step(w, e));
      AwayDue(w, e, g, c);
  }

  // ----- What a client shows -----

  /** Everything together. */
  ghost predicate Presence(w: World, g: GameId, c: ConnId) {
    AllNewsOk(w) && StoredThere(w.sh, g) && Differ(w.sh, g) && AllDue(w, g, c)
  }

  lemma StepPresence(w: World, e: Event, g: GameId, c: ConnId)
    requires Inv(w) && Enabled(w, e) && Presence(w, g, c) && !LeavesBeside(w, e, g) && !Strands(w, e, g)
    ensures Presence(Step(w, e), g, c)
  {
    hide Inv, Enabled, Step, Global, Does, Do, Allowed, AllNewsOk, StoredThere, Differ, AllDue, LeavesBeside, IsStored;
    StepDo(w, e);
    StepAllowed(w, e);
    DoStored(w.sh, Mover(e), Holding(w, e), Does(w, e), g);
    DoDiffer(w.sh, Mover(e), Holding(w, e), Does(w, e), g);
    StepNews(w, e);
    StepDue(w, e, g, c);
  }

  lemma InitPresence(w: World, g: GameId, c: ConnId)
    requires Init(w) && Differ(w.sh, g)
    ensures Presence(w, g, c)
  {
    hide Differ;
  }

  lemma AlwaysPresence(v: World, w: World, g: GameId, c: ConnId)
    requires Init(v) && Differ(v.sh, g) && LeadsBy(v, w, (u, e) => !LeavesBeside(u, e, g) && !Strands(u, e, g))
    ensures Inv(w) && Presence(w, g, c)
  {
    hide *;
    var good := (u, e) => !LeavesBeside(u, e, g) && !Strands(u, e, g);
    InitInv(v);
    InitPresence(v, g, c);
    forall u, e | Inv(u) && Presence(u, g, c) && Enabled(u, e) && good(u, e) ensures Presence(Step(u, e), g, c) {
      StepPresence(u, e, g, c);
    }
    KeptBy(v, w, good, u => Presence(u, g, c));
  }

  /**
   * Unless a connection is detached from a seat in which another live one still sits, or left attached without its
   * player, every client shows a seat as connected if a live connection sits in it, and only if a connection does:
   * whenever nobody is inside the lock of the game and no snapshot of it failed to be built since its last broadcast.
   */
  lemma ClientsSeeWhoIsThere(v: World, w: World, g: GameId, c: ConnId)
    requires Init(v) && Differ(v.sh, g) && LeadsBy(v, w, (u, e) => !LeavesBeside(u, e, g) && !Strands(u, e, g))
    requires LockFree(w, g) && g !in w.sh.stale && c in w.sh.reg.Attached(g) && !w.sh.Closing(c)
    ensures Fits(ShownTo(w.sh, c, g), w.sh, g)
  {
    hide Init, Inv, Differ, StoredThere, AllNewsOk, LeadsBy, LeavesBeside, Strands, LockFree, Fits, ShownTo;
    AlwaysPresence(v, w, g, c);
  }

  /**
   * Under the same conditions, and while no attached connection is closing, a client that shows the state of the last
   * snapshot of its game, and who came and went since, shows the state and the connected seats that the server would
   * send it now: it has missed nothing.
   */
  lemma ClientsSeeTheGame(v: World, w: World, g: GameId, c: ConnId)
    requires Init(v) && Differ(v.sh, g) && LeadsBy(v, w, (u, e) => !LeavesBeside(u, e, g) && !Strands(u, e, g))
    requires LockFree(w, g) && g !in w.sh.stale && c in w.sh.reg.Attached(g)
    requires forall d :: d in w.sh.reg.Attached(g) ==> !w.sh.Closing(d)
    ensures match LastAbout(w.sh.Log(c), g) case Some(last) => w.sh.State(g) == Some(last.Shows()) case None => false
    ensures ShownTo(w.sh, c, g) == ConnectedNow(w.sh, g)
  {
    hide Init, LockInv, Justified, Global, Differ, StoredThere, AllNewsOk, AllDue, LeadsBy, LeavesBeside, Strands,
        LockFree, Fits, ShownTo, Online, Filled;
    LeadsReaches(v, w, (u, e) => !LeavesBeside(u, e, g) && !Strands(u, e, g));
    ClientsSeeWhoIsThere(v, w, g, c);
    ViewsAreCoherent(w, g, c);
    AlwaysPresence(v, w, g, c);
    match Get(w.sh.db.games, g)
    case Some(row) =>
      ViewFits(w.sh, g, row);
      SameSets(ShownTo(w.sh, c, g), w.sh.View(g, row).connected, w.sh, g);
    case None =>
  }

  /** The seats that the server would show as connected now. */
  function ConnectedNow(sh: Shared, g: GameId): set<Seat> {
    match Get(sh.db.games, g)
    case Some(row) => sh.View(g, row).connected
    case None => {}
  }

  lemma SameSets(shown: set<Seat>, now: set<Seat>, sh: Shared, g: GameId)
    requires Fits(shown, sh, g) && Fits(now, sh, g) && forall d :: d in sh.reg.Attached(g) ==> !sh.Closing(d)
    ensures shown == now
  {
    forall seat: Seat ensures seat in shown <==> seat in now {
      assert Online(sh, g, seat) ==> seat in shown && seat in now;
      if Filled(sh, g, seat) {
        var d :| d in sh.reg.Attached(g) && sh.Place(d) == At(g, seat);
        assert !sh.Closing(d);
      }
    }
  }

  /** A live connection sits in a seat that client c shows as empty. */
  ghost predicate Overlooks(sh: Shared, g: GameId, c: ConnId, seat: Seat) {
    Online(sh, g, seat) && seat !in ShownTo(sh, c, g)
  }

  /** Goroutine t is about to tell connection c that whoever sat there has gone. */
  predicate TellsOfGoing(w: World, t: Tid, g: GameId, c: ConnId, seat: Seat) {
    IsInside(w, t, g) && match w.Phase(t).Doing()
      case Sends(todo, msgs, _, next, _) =>
        todo != [] && todo[0] == c && next < |msgs| && msgs[next] == OpponentDisconnected(seat)
      case _ => false
  }

  lemma TellingSays(w: World, t: Tid, ch: Choice, g: GameId, c: ConnId, seat: Seat)
    requires TellsOfGoing(w, t, g, c, seat)
    ensures Does(w, Go(t, ch)) == Say(c, OpponentDisconnected(seat))
  {
  }

  lemma GoingSaid(sh: Shared, g: GameId, c: ConnId, seat: Seat)
    requires HasRoom(sh, c)
    ensures
      var sh' := sh.Sent(c, OpponentDisconnected(seat));
      seat !in ShownTo(sh', c, g) && (Online(sh', g, seat) <==> Online(sh, g, seat))
  {
    hide Shown;
    ShownAppended(sh.Log(c), OpponentDisconnected(seat), g);
    var sh' := sh.Sent(c, OpponentDisconnected(seat));
    assert forall e :: e in sh.reg.Attached(g) && sh.Place(e) == At(g, seat) && !sh.Closing(e) <==>
      e in sh'.reg.Attached(g) && sh'.Place(e) == At(g, seat) && !sh'.Closing(e);
  }

  /**
   * Telling a client that somebody has gone makes it overlook the seat exactly if a live connection sits there still.
   */
  lemma GoingOverlooks(w: World, t: Tid, ch: Choice, g: GameId, c: ConnId, seat: Seat)
    requires Enabled(w, Go(t, ch)) && TellsOfGoing(w, t, g, c, seat) && HasRoom(w.sh, c)
    ensures Overlooks(Step(w, Go(t, ch)).sh, g, c, seat) <==> Online(w.sh, g, seat)
  {
    hide Enabled, Step, Does, Online, ShownTo, TellsOfGoing, HasRoom;
    StepDo(w, Go(t, ch));
    TellingSays(w, t, ch, g, c, seat);
    GoingSaid(w.sh, g, c, seat);
  }
}
