/**
 * Two servers that differ in nothing but a throw that one player has locked in: what one of them does in a step, the
 * other does too, as long as the round stays ACTIVE.
 */
module ProtocolAlike {
  import opened Wrappers
  import opened Timestamps
  import opened Rules
  import opened Store
  import opened Registry
  import opened Snapshots
  import opened Protocol
  import opened ProtocolDoes

  // ----- What differs -----

  /** The game and the seat whose throws are compared. */
  datatype Secret = Secret(game: GameId, owner: Seat)

  function WithMove(s: State, seat: Seat, m: Move): State {
    if seat == Host then s.(hostMove := m) else s.(guestMove := m)
  }

  /** Two states that differ at most in which throw the owner has locked in, in a round that is ACTIVE. */
  predicate AlikeStates(a: State, b: State, owner: Seat) {
    || a == b
    || (&& a.status == Active && a.MoveOf(owner) != Pending && b.MoveOf(owner) != Pending
        && b == WithMove(a, owner, b.MoveOf(owner)))
  }

  /** Rows of game g. */
  predicate AlikeRows(g: GameId, r: Game, r': Game, x: Secret) {
    r' == r || (g == x.game && r' == r.(state := r'.state) && AlikeStates(r.state, r'.state, x.owner))
  }

  /** Copies that have not been saved may differ in their states. */
  predicate AlikeCopies(g: GameId, r: Game, r': Game, x: Secret) {
    r' == r || (g == x.game && r' == r.(state := r'.state))
  }

  predicate AlikeViews(g: GameId, v: GameView, v': GameView, x: Secret) {
    v' == v.(row := v'.row) && AlikeRows(g, v.row, v'.row, x)
  }

  predicate AlikeSnaps(s: Snap, s': Snap, x: Secret) {
    s' == s.(view := s'.view) && AlikeViews(s.game, s.view, s'.view, x)
  }

  predicate AlikeMsgs(m: Msg, m': Msg, x: Secret) {
    || m' == m
    || (match m
        case StateIs(s) => (match m' case StateIs(s') => AlikeSnaps(s, s', x) case _ => false)
        case Direct(rid, OkConnected(s)) =>
          (match m' case Direct(rid', OkConnected(s')) => rid' == rid && AlikeSnaps(s, s', x) case _ => false)
        case _ => false)
  }

  predicate AlikeLogs(log: seq<Msg>, log': seq<Msg>, x: Secret) {
    |log| == |log'| && forall k :: 0 <= k < |log| ==> AlikeMsgs(log[k], log'[k], x)
  }

  predicate AlikeChans(ch: Chan, ch': Chan, x: Secret) {
    ch' == ch.(log := ch'.log) && AlikeLogs(ch.log, ch'.log, x)
  }

  ghost predicate AlikeDbs(db: Db, db': Db, x: Secret) {
    && db'.players == db.players && db'.games.Keys == db.games.Keys
    && (forall g :: g in db.games ==> AlikeRows(g, db.games[g], db'.games[g], x))
  }

  /** The saves of the compared game need only be equally many. */
  ghost predicate AlikeSaves(sh: Shared, sh': Shared) {
    sh'.saves.Keys == sh.saves.Keys && forall g :: sh'.Version(g) == sh.Version(g)
  }

  ghost predicate AlikeOutbound(sh: Shared, sh': Shared, x: Secret) {
    sh'.chan.Keys == sh.chan.Keys && forall c :: c in sh.chan ==> AlikeChans(sh.chan[c], sh'.chan[c], x)
  }

  predicate AlikeRest(sh: Shared, sh': Shared) {
    sh'.reg == sh.reg && sh'.used == sh.used && sh'.stale == sh.stale && sh'.seatings == sh.seatings
  }

  ghost predicate AlikeShared(sh: Shared, sh': Shared, x: Secret) {
    AlikeDbs(sh.db, sh'.db, x) && AlikeSaves(sh, sh') && AlikeOutbound(sh, sh', x) && AlikeRest(sh, sh')
  }

  // ----- Control states -----

  predicate ValidPlay(a: Action) {
    a.Play? && a.move.Some? && a.move.value != Pending
  }

  /** The reader's connection is in the owner's seat, or nowhere. */
  predicate Owns(sh: Shared, t: Tid, x: Secret) {
    t.Reader? && sh.Place(t.Mine()) in {Nowhere, At(x.game, x.owner)}
  }

  /** The same action, or two throws of the owner. */
  predicate AlikeActions(a: Action, a': Action, owned: bool) {
    a' == a || (ValidPlay(a) && ValidPlay(a') && owned)
  }

  predicate AlikeViewed(g: GameId, viewed: Option<GameView>, viewed': Option<GameView>, x: Secret) {
    match viewed
    case Some(v) => (match viewed' case Some(v') => AlikeViews(g, v, v', x) case None => false)
    case None => viewed' == None
  }

  predicate AlikeThen(g: GameId, k: Then, k': Then, x: Secret) {
    || k' == k
    || (match k
        case ThenConnList(seat, view, v) =>
          k'.ThenConnList? && k' == ThenConnList(seat, k'.view, v) && AlikeViews(g, view, k'.view, x)
        case ThenTell(e, row, v) => k'.ThenTell? && k' == ThenTell(e, k'.row, v) && AlikeRows(g, row, k'.row, x)
        case ThenBroadcast(row, v) => k'.ThenBroadcast? && k' == ThenBroadcast(k'.row, v)
            && AlikeRows(g, row, k'.row, x)
        case ThenClose(reason, side, row, v, o) =>
          k'.ThenClose? && k' == ThenClose(reason, side, k'.row, v, o) && AlikeRows(g, row, k'.row, x)
        case _ => false)
  }

  /** Control states under the lock of game g; `owned` if the connection is in the owner's seat or nowhere. */
  predicate AlikeIn(g: GameId, i: InPc, i': InPc, owned: bool, x: Secret) {
    i' == i || AlikePc(g, i, i', owned, x)
  }

  predicate AlikePc(g: GameId, i: InPc, i': InPc, owned: bool, x: Secret) {
    match i
    case ConnSave(p, copy, seat, joined) =>
      i'.ConnSave? && i' == ConnSave(p, i'.copy, seat, joined) && AlikeCopies(g, copy, i'.copy, x)
    case ConnAttach(seat, row, v, joined) =>
      i'.ConnAttach? && i' == ConnAttach(seat, i'.row, v, joined) && AlikeRows(g, row, i'.row, x)
    case ConnView(seat, row, v, joined, was) =>
      i'.ConnView? && i' == ConnView(seat, i'.row, v, joined, was) && AlikeRows(g, row, i'.row, x)
    case ConnList(seat, view, v) => i'.ConnList? && i' == ConnList(seat, i'.view, v) && AlikeViews(g, view, i'.view, x)
    case ActCheck(a) => i'.ActCheck? && AlikeActions(a, i'.action, owned)
    case ActLoad(a, seat, p) =>
      i'.ActLoad? && i' == ActLoad(i'.action, seat, p) && AlikeActions(a, i'.action, g == x.game && seat == x.owner)
    case ActSave(a, seat, p, copy) =>
      && i'.ActSave? && i' == ActSave(i'.action, seat, p, i'.copy) && AlikeCopies(g, copy, i'.copy, x)
      && AlikeActions(a, i'.action, g == x.game && seat == x.owner)
    case ActDetach(seat, row, v) => i'.ActDetach? && i' == ActDetach(seat, i'.row, v) && AlikeRows(g, row, i'.row, x)
    case Tell(e, row, v) => i'.Tell? && i' == Tell(e, i'.row, v) && AlikeRows(g, row, i'.row, x)
    case CastView(row, v) => i'.CastView? && i' == CastView(i'.row, v) && AlikeRows(g, row, i'.row, x)
    case CastList(view, v) => i'.CastList? && i' == CastList(i'.view, v) && AlikeViews(g, view, i'.view, x)
    case CloseView(reason, side, row, v, o) =>
      i'.CloseView? && i' == CloseView(reason, side, i'.row, v, o) && AlikeRows(g, row, i'.row, x)
    case CloseList(reason, side, row, v, viewed, o) =>
      && i'.CloseList? && i' == CloseList(reason, side, i'.row, v, i'.viewed, o)
      && AlikeRows(g, row, i'.row, x) && AlikeViewed(g, viewed, i'.viewed, x)
    case Sends(todo, msgs, seats, next, k) =>
      && i'.Sends? && i' == Sends(todo, i'.msgs, seats, next, i'.after)
      && AlikeLogs(msgs, i'.msgs, x) && AlikeThen(g, k, i'.after, x)
    case ExpSave(p, todo, mark, copy, seat) =>
      i'.ExpSave? && i' == ExpSave(p, todo, mark, i'.copy, seat) && AlikeCopies(g, copy, i'.copy, x)
    case ExpDetach(p, todo, mark, seat, row, v) =>
      i'.ExpDetach? && i' == ExpDetach(p, todo, mark, seat, i'.row, v) && AlikeRows(g, row, i'.row, x)
    case _ => false
  }

  predicate AlikeOut(o: OutPc, o': OutPc, owned: bool, x: Secret) {
    || o' == o
    || (match o
        case Dispatch(a) => (match o' case Dispatch(a') => AlikeActions(a, a', owned) case _ => false)
        case Gate(a) => (match o' case Gate(a') => AlikeActions(a, a', owned) case _ => false)
        case WithGame(a) => (match o' case WithGame(a') => AlikeActions(a, a', owned) case _ => false)
        case Lock(g, i) => (match o' case Lock(g', i') => g' == g && AlikeIn(g, i, i', owned, x) case _ => false)
        case _ => false)
  }

  predicate AlikePhases(p: Phase, p': Phase, owned: bool, x: Secret) {
    match p
    case Out(o) => (match p' case Out(o') => AlikeOut(o, o', owned, x) case _ => false)
    case Waiting(g, l, i) => p' == Waiting(g, l, p'.Doing()) && AlikeIn(g, i, p'.Doing(), owned, x)
    case Inside(g, l, i) => p' == Inside(g, l, p'.Doing()) && AlikeIn(g, i, p'.Doing(), owned, x)
    case Exiting(_, _, _) => p' == p
  }

  ghost predicate AlikeWorlds(w: World, w': World, x: Secret) {
    && AlikeShared(w.sh, w'.sh, x) && w'.locks == w.locks && w'.objs == w.objs
    && w'.threads.Keys == w.threads.Keys
    && (forall t :: t in w.threads ==> AlikeThread(w, w', t, x))
  }

  predicate AlikeThread(w: World, w': World, t: Tid, x: Secret) {
    && t in w.threads && t in w'.threads && w'.Served(t) == w.Served(t)
    && AlikePhases(w.Phase(t), w'.Phase(t), Owns(w.sh, t, x), x)
  }

  // ----- The rules -----

  predicate AlikeAttempts(a: Attempt, b: Attempt, owner: Seat) {
    a == b || (a.Throw? && b.Throw? && a.seat == b.seat == owner && a.move != Pending && b.move != Pending)
  }

  /** The rules refuse alike attempts on alike states for the same reason, or accept both. */
  lemma AlikeRefusals(a: State, b: State, y: Attempt, z: Attempt, owner: Seat)
    requires AlikeStates(a, b, owner) && AlikeAttempts(y, z, owner)
    ensures Apply(a, y).Success? <==> Apply(b, z).Success?
    ensures Apply(a, y).Failure? ==> Apply(b, z) == Apply(a, y)
  {
  }

  /** What they accept leads to alike states, unless the round leaves ACTIVE with a difference. */
  lemma AlikeRules(a: State, b: State, y: Attempt, z: Attempt, owner: Seat)
    requires AlikeStates(a, b, owner) && AlikeAttempts(y, z, owner) && Apply(a, y).Success?
    requires Apply(b, z) == Apply(a, y) || Apply(a, y).value.status == Active
    ensures Apply(b, z).Success? && AlikeStates(Apply(a, y).value, Apply(b, z).value, owner)
  {
  }

  lemma AlikeAttemptOf(a: Action, a': Action, seat: Seat, owner: Seat)
    requires AlikeActions(a, a', seat == owner)
    ensures AlikeAttempts(AttemptOf(a, seat), AttemptOf(a', seat), owner)
  {
  }

  // ----- Effects on what is shared -----

  /** Effects that differ at most in the throw. */
  predicate AlikeEffects(e: Effect, e': Effect, x: Secret) {
    match e
    case Say(c, m) => (match e' case Say(c', m') => c' == c && AlikeMsgs(m, m', x) case _ => false)
    case Save(g, row, actor, now, _, guest) =>
      (match e'
       case Save(g', row', actor', now', _, guest') =>
         g' == g && AlikeRows(g, row, row', x) && actor' == actor && now' == now && guest' == guest
       case _ => false)
    case _ => e' == e
  }

  lemma AlikeRendered(m: Msg, m': Msg, seats: map<ConnId, Seat>, d: ConnId, x: Secret)
    requires AlikeMsgs(m, m', x)
    ensures AlikeMsgs(Rendered(m, seats, d), Rendered(m', seats, d), x)
  {
  }

  lemma AlikeSend(ch: Chan, ch': Chan, m: Msg, m': Msg, x: Secret)
    requires AlikeChans(ch, ch', x) && AlikeMsgs(m, m', x)
    ensures AlikeChans(Send(ch, m), Send(ch', m'), x)
  {
    hide AlikeMsgs;
    var log, log' := ch.log + [m], ch'.log + [m'];
    forall k | 0 <= k < |log| ensures AlikeMsgs(log[k], log'[k], x) {
      if k < |ch.log| {
        assert AlikeMsgs(ch.log[k], ch'.log[k], x);
      }
    }
    assert AlikeLogs(log, log', x);
  }

  lemma AlikeStoring(db: Db, db': Db, g: GameId, r: Game, r': Game, actor: Option<PlayerId>, now: Time, x: Secret)
    requires AlikeDbs(db, db', x) && (AlikeCopies(g, r, r', x) || AlikeRows(g, r, r', x))
    ensures match SaveGame(db, g, r, actor, now)
      case Success(u) =>
        (match SaveGame(db', g, r', actor, now)
         case Success(u') => AlikeRows(g, r, r', x) ==> AlikeDbs(u, u', x)
         case Failure(_) => false)
      case Failure(_) => SaveGame(db', g, r', actor, now).Failure?
  {
  }

  lemma RemovedDbs(sh: Shared, sh': Shared, p: PlayerId, x: Secret)
    requires AlikeDbs(sh.db, sh'.db, x)
    ensures AlikeDbs(Do(sh, Remove(p)).db, Do(sh', Remove(p)).db, x)
  {
  }

  lemma SameDbs(sh: Shared, sh': Shared, e: Effect, x: Secret)
    requires AlikeDbs(sh.db, sh'.db, x) && !e.Save? && !e.Remove?
    ensures AlikeDbs(Do(sh, e).db, Do(sh', e).db, x)
  {
    hide Bind, Forget, Attach, Detach, DetachSet, AddConn, Send, Close, SaveGame, DeletePlayer;
    assert forall g, r :: AlikeRows(g, r, r, x);
    hide AlikeRows;
  }

  lemma SavedDbs(sh: Shared, sh': Shared, g: GameId, row: Game, row': Game, actor: Option<PlayerId>, now: Time,
                 c: Commit, c': Commit, guest: Option<PlayerId>, x: Secret)
    requires AlikeDbs(sh.db, sh'.db, x) && AlikeRows(g, row, row', x)
    ensures AlikeDbs(Do(sh, Save(g, row, actor, now, c, guest)).db, Do(sh', Save(g, row', actor, now, c', guest)).db, x)
  {
    hide AlikeRows, AlikeDbs, SaveGame;
    AlikeStoring(sh.db, sh'.db, g, row, row', actor, now, x);
  }

  /** Nothing but messages and rows differs. */
  lemma SameEffects(e: Effect, e': Effect, x: Secret)
    requires AlikeEffects(e, e', x)
    ensures e.Say? || e.Save? || e' == e
  {
  }

  lemma DbsAlike(sh: Shared, sh': Shared, e: Effect, e': Effect, x: Secret)
    requires AlikeDbs(sh.db, sh'.db, x) && AlikeEffects(e, e', x)
    ensures AlikeDbs(Do(sh, e).db, Do(sh', e').db, x)
  {
    hide AlikeMsgs, AlikeRows, AlikeDbs, Do;
    SameEffects(e, e', x);
    match e
    case Save(g, row, actor, now, c, guest) =>
      match e' {
        case Save(_, row', _, _, c', _) => SavedDbs(sh, sh', g, row, row', actor, now, c, c', guest, x);
      }
    case Say(c, m) =>
      match e' {
        case Say(_, m') => SaidDbs(sh, sh', c, m, m');
      }
    case Remove(p) => RemovedDbs(sh, sh', p, x);
    case _ => SameDbs(sh, sh', e, x);
  }

  lemma SaidDbs(sh: Shared, sh': Shared, c: ConnId, m: Msg, m': Msg)
    ensures Do(sh, Say(c, m)).db == sh.db && Do(sh', Say(c, m')).db == sh'.db
  {
  }

  /** A save that the store accepts makes the next version of its game. */
  lemma SaveVersion(sh: Shared, g: GameId, row: Game, actor: Option<PlayerId>, now: Time, c: Commit,
                    guest: Option<PlayerId>)
    ensures
      var n := Do(sh, Save(g, row, actor, now, c, guest));
      && n.saves.Keys == sh.saves.Keys && n.reg == sh.reg && n.used == sh.used && n.stale == sh.stale
      && n.seatings == (if SaveGame(sh.db, g, row, actor, now).Success? then SavedAs(sh, guest).seatings
          else sh.seatings)
    ensures
      var made := if g in sh.saves && SaveGame(sh.db, g, row, actor, now).Success? then 1 else 0;
      forall h :: Do(sh, Save(g, row, actor, now, c, guest)).Version(h) == sh.Version(h) + (if h == g then made else 0)
  {
    hide SaveGame;
  }

  lemma SaveAlike(sh: Shared, sh': Shared, g: GameId, row: Game, row': Game, actor: Option<PlayerId>, now: Time,
                  c: Commit, c': Commit, guest: Option<PlayerId>, x: Secret)
    requires AlikeShared(sh, sh', x) && AlikeRows(g, row, row', x)
    ensures
      var n, n' := Do(sh, Save(g, row, actor, now, c, guest)), Do(sh', Save(g, row', actor, now, c', guest));
      AlikeSaves(n, n') && AlikeRest(n, n')
  {
    hide AlikeDbs, AlikeOutbound, AlikeRows, SaveGame, Do;
    AlikeStoring(sh.db, sh'.db, g, row, row', actor, now, x);
    SaveVersion(sh, g, row, actor, now, c, guest);
    SaveVersion(sh', g, row', actor, now, c', guest);
  }

  lemma SameSaves(sh: Shared, sh': Shared, e: Effect, x: Secret)
    requires AlikeShared(sh, sh', x) && !e.Save?
    ensures AlikeSaves(Do(sh, e), Do(sh', e)) && AlikeRest(Do(sh, e), Do(sh', e))
  {
    hide AlikeChans, AlikeOutbound, AlikeRows, Bind, Forget, Attach, Detach, DetachSet, AddConn, Send, Close,
        TouchPlayer, DeletePlayer, DeleteGame;
    var n, n' := Do(sh, e), Do(sh', e);
    if !e.Found? {
      DoSaves(sh, e);
      DoSaves(sh', e);
    }
    forall g ensures n'.Version(g) == n.Version(g) {
      assert sh'.Version(g) == sh.Version(g);
    }
  }

  lemma SaidAlike(sh: Shared, sh': Shared, c: ConnId, m: Msg, m': Msg, x: Secret)
    requires AlikeShared(sh, sh', x)
    ensures AlikeSaves(Do(sh, Say(c, m)), Do(sh', Say(c, m'))) && AlikeRest(Do(sh, Say(c, m)), Do(sh', Say(c, m')))
  {
    hide AlikeChans, AlikeDbs, AlikeOutbound, Send;
    forall g ensures sh'.Sent(c, m').Version(g) == sh.Sent(c, m).Version(g) {
      assert sh'.Version(g) == sh.Version(g);
    }
  }

  lemma SavesAlike(sh: Shared, sh': Shared, e: Effect, e': Effect, x: Secret)
    requires AlikeShared(sh, sh', x) && AlikeEffects(e, e', x)
    ensures AlikeSaves(Do(sh, e), Do(sh', e')) && AlikeRest(Do(sh, e), Do(sh', e'))
  {
    hide AlikeShared, AlikeSaves, AlikeRest, AlikeRows, AlikeMsgs, Do;
    SameEffects(e, e', x);
    match e
    case Save(g, row, actor, now, c, guest) =>
      match e' {
        case Save(_, row', _, _, c', _) => SaveAlike(sh, sh', g, row, row', actor, now, c, c', guest, x);
      }
    case Say(c, m) =>
      match e' {
        case Say(_, m') => SaidAlike(sh, sh', c, m, m', x);
      }
    case _ => SameSaves(sh, sh', e, x);
  }

  lemma SameOutbound(sh: Shared, sh': Shared, e: Effect, x: Secret)
    requires AlikeOutbound(sh, sh', x) && !e.Say? && !e.Save?
    ensures AlikeOutbound(Do(sh, e), Do(sh', e), x)
  {
    hide AlikeLogs, Bind, Forget, Attach, Detach, DetachSet, AddConn, Send, TouchPlayer, DeletePlayer, DeleteGame,
        SaveGame,
        CreateGame;
    EmptyAlike(x);
  }

  lemma SaidOutbound(sh: Shared, sh': Shared, c: ConnId, m: Msg, m': Msg, x: Secret)
    requires AlikeOutbound(sh, sh', x) && AlikeMsgs(m, m', x)
    ensures AlikeOutbound(sh.Sent(c, m), sh'.Sent(c, m'), x)
  {
    hide AlikeChans, AlikeMsgs, Send;
    if c in sh.chan {
      AlikeSend(sh.chan[c], sh'.chan[c], m, m', x);
    }
  }

  lemma OutboundAlike(sh: Shared, sh': Shared, e: Effect, e': Effect, x: Secret)
    requires AlikeOutbound(sh, sh', x) && AlikeEffects(e, e', x)
    ensures AlikeOutbound(Do(sh, e), Do(sh', e'), x)
  {
    hide AlikeMsgs, AlikeRows, AlikeChans, Bind, Forget, Attach, Detach, DetachSet, AddConn, Shared.Sent, TouchPlayer,
        DeletePlayer,
        DeleteGame, SaveGame, CreateGame;
    match e
    case Say(c, m) =>
      match e' {
        case Say(_, m') => SaidOutbound(sh, sh', c, m, m', x);
      }
    case Save(_, _, _, _, _, _) =>
    case _ => SameOutbound(sh, sh', e, x);
  }

  lemma EmptyAlike(x: Secret)
    ensures AlikeLogs([], [], x)
  {
  }

  /** Alike effects on alike shared states. */
  lemma DoAlike(sh: Shared, sh': Shared, e: Effect, e': Effect, x: Secret)
    requires AlikeShared(sh, sh', x) && AlikeEffects(e, e', x)
    ensures AlikeShared(Do(sh, e), Do(sh', e'), x)
  {
    hide AlikeDbs, AlikeSaves, AlikeOutbound, AlikeRest, Do, AlikeEffects;
    DbsAlike(sh, sh', e, e', x);
    SavesAlike(sh, sh', e, e', x);
    OutboundAlike(sh, sh', e, e', x);
  }

  // ----- What is the same -----

  lemma SameRest(sh: Shared, sh': Shared, x: Secret)
    requires AlikeShared(sh, sh', x)
    ensures sh'.reg == sh.reg && sh'.seatings == sh.seatings && sh'.stale == sh.stale && sh'.db.players == sh.db.players
    ensures forall c :: sh'.Closing(c) == sh.Closing(c)
    ensures forall g :: sh'.Version(g) == sh.Version(g) && (g in sh'.saves <==> g in sh.saves)
  {
    hide AlikeLogs, AlikeRows;
    forall c ensures sh'.Closing(c) == sh.Closing(c) {
      assert c in sh.chan ==> AlikeChans(sh.chan[c], sh'.chan[c], x);
    }
  }

  predicate AlikeStored(g: GameId, row: Option<Game>, row': Option<Game>, x: Secret) {
    match row
    case Some(r) => (match row' case Some(r') => AlikeRows(g, r, r', x) case None => false)
    case None => row' == None
  }

  lemma RowsOf(sh: Shared, sh': Shared, g: GameId, x: Secret)
    requires AlikeShared(sh, sh', x)
    ensures AlikeStored(g, Get(sh.db.games, g), Get(sh'.db.games, g), x)
  {
    hide AlikeOutbound, AlikeSaves, AlikeRows;
  }

  /** The same connections look live, so views of alike rows are alike. */
  lemma AlikeView(sh: Shared, sh': Shared, g: GameId, row: Game, row': Game, x: Secret)
    requires AlikeShared(sh, sh', x) && AlikeRows(g, row, row', x)
    ensures AlikeViews(g, sh.View(g, row), sh'.View(g, row'), x)
  {
    hide AlikeShared;
    SameRest(sh, sh', x);
    assert forall c :: c in sh'.ClosingConns() <==> sh'.Closing(c);
    assert forall c :: c in sh.ClosingConns() <==> sh.Closing(c);
    assert sh.ClosingConns() == sh'.ClosingConns();
    assert row.host == row'.host && row.guest == row'.guest;
    SameView(sh.db, sh'.db, sh.reg, sh.ClosingConns(), g, row, row');
  }

  lemma SameView(db: Db, db': Db, reg: Reg<ConnId>, closing: set<ConnId>, g: GameId, row: Game, row': Game)
    requires db.players == db'.players && row.host == row'.host && row.guest == row'.guest
    ensures ViewOf(db', reg, closing, g, row') == ViewOf(db, reg, closing, g, row).(row := row')
  {
    hide Present;
    forall seat ensures row.PlayerOf(seat) == row'.PlayerOf(seat)
        && (Present(reg, closing, g, row, seat) <==> Present(reg, closing, g, row', seat)) {
      SamePresent(reg, closing, g, row, row', seat);
    }
    var v, v' := ViewOf(db, reg, closing, g, row), ViewOf(db', reg, closing, g, row');
    assert v'.names == v.names;
    assert v'.connected == v.connected;
  }

  lemma SamePresent(reg: Reg<ConnId>, closing: set<ConnId>, g: GameId, row: Game, row': Game, seat: Seat)
    requires row.host == row'.host && row.guest == row'.guest
    ensures Present(reg, closing, g, row, seat) <==> Present(reg, closing, g, row', seat)
  {
    assert forall c :: SitsAt(reg, c, row, seat) == SitsAt(reg, c, row', seat);
  }

  /** Looking a game up never depends on its throws. */
  lemma SameLoad(sh: Shared, sh': Shared, g: GameId, digest: Digest, fail: bool, x: Secret)
    requires AlikeShared(sh, sh', x)
    ensures match Load(sh, g, digest, fail)
      case Success(r) => (match Load(sh', g, digest, fail) case Success(r') => AlikeRows(g, r, r',
          x) case Failure(_) => false)
      case Failure(e) => Load(sh', g, digest, fail) == Failure(e)
  {
    hide AlikeSaves, AlikeOutbound;
  }

  // ----- Steps outside game locks -----

  /** Choices differ at most in which throw the owner asks for while its reader is idle. */
  predicate AlikeChoices(ch: Choice, ch': Choice, owned: bool) {
    ch' == ch.(frame := ch'.frame) && AlikeFrames(ch.frame, ch'.frame, owned)
  }

  predicate AlikeFrames(f: Frame, f': Frame, owned: bool) {
    match f
    case Request(rid, a) => (match f' case Request(rid', a') => rid' == rid
        && AlikeActions(a, a', owned) case _ => false)
    case _ => f' == f
  }

  ghost predicate AlikeFree(e: Effect, e': Effect, to: To<OutPc>, to': To<OutPc>, owned: bool, x: Secret) {
    AlikeEffects(e, e', x) && AlikeOut(to.pc, to'.pc, owned, x) && to'.serving == to.serving
  }

  /** Two steps outside locks, side by side. */
  ghost predicate FreePair(sh: Shared, sh': Shared, t: Tid, sv: Serving, o: OutPc, o': OutPc, ch: Choice, ch': Choice,
                           x: Secret)
  {
    AlikeFree(FreeDoes(sh, t, sv, o, ch), FreeDoes(sh', t, sv, o', ch'), Free(sh, t, sv, o, ch),
        Free(sh', t, sv, o', ch'), Owns(sh, t, x), x)
  }

  /** A request arrives, which may be the owner's throw. */
  lemma FreeIdle(sh: Shared, sh': Shared, t: Tid, sv: Serving, ch: Choice, ch': Choice, x: Secret)
    requires AlikeShared(sh, sh', x) && AlikeChoices(ch, ch', Owns(sh, t, x))
    ensures FreePair(sh, sh', t, sv, Idle, Idle, ch, ch', x)
  {
    hide AlikeShared, AlikePc, Owns;
  }

  lemma FreeDispatch(sh: Shared, sh': Shared, t: Tid, sv: Serving, a: Action, a': Action, ch: Choice, x: Secret)
    requires AlikeShared(sh, sh', x) && AlikeActions(a, a', Owns(sh, t, x))
    ensures FreePair(sh, sh', t, sv, Dispatch(a), Dispatch(a'), ch, ch, x)
  {
    hide AlikeShared, AlikePc, Owns;
    SameRest(sh, sh', x);
  }

  lemma FreeGate(sh: Shared, sh': Shared, t: Tid, sv: Serving, a: Action, a': Action, ch: Choice, x: Secret)
    requires AlikeShared(sh, sh', x) && AlikeActions(a, a', Owns(sh, t, x))
    ensures FreePair(sh, sh', t, sv, Gate(a), Gate(a'), ch, ch, x)
  {
    hide AlikeShared, AlikePc, Owns;
    SameRest(sh, sh', x);
  }

  lemma FreeGoing(sh: Shared, sh': Shared, t: Tid, sv: Serving, a: Action, a': Action, ch: Choice, x: Secret)
    requires AlikeShared(sh, sh', x) && AlikeActions(a, a', Owns(sh, t, x))
    ensures FreePair(sh, sh', t, sv, WithGame(a), WithGame(a'), ch, ch, x)
  {
    hide AlikeShared, AlikeActions, Owns;
    SameRest(sh, sh', x);
  }

  /** Every other step outside locks is the same step. */
  lemma FreeSame(sh: Shared, sh': Shared, t: Tid, sv: Serving, o: OutPc, ch: Choice, x: Secret)
    requires AlikeShared(sh, sh', x) && !o.Idle? && !o.Dispatch? && !o.Gate? && !o.WithGame?
    ensures FreePair(sh, sh', t, sv, o, o, ch, ch, x)
  {
    hide AlikeShared, FreePair, AlikeRows, Load, Gated, Resumed, Before, TouchPlayer, DeletePlayer, Bind, Forget,
        Shared.Sent, Shared.Closed;
    SameRest(sh, sh', x);
    match o {
      case ConnLoad(g, digest) => SameLoad(sh, sh', g, digest, ch.fail, x);
      case _ =>
    }
    SameFree(sh, sh', t, sv, o, ch, x);
  }

  lemma SameFree(sh: Shared, sh': Shared, t: Tid, sv: Serving, o: OutPc, ch: Choice, x: Secret)
    requires FreeDoes(sh', t, sv, o, ch) == FreeDoes(sh, t, sv, o, ch)
    requires Free(sh', t, sv, o, ch).pc == Free(sh, t, sv, o, ch).pc
    requires Free(sh', t, sv, o, ch).serving == Free(sh, t, sv, o, ch).serving
    ensures FreePair(sh, sh', t, sv, o, o, ch, ch, x)
  {
    hide Free, FreeDoes, AlikePc, Owns;
  }

  lemma FreeAlike(sh: Shared, sh': Shared, t: Tid, sv: Serving, o: OutPc, o': OutPc, ch: Choice, ch': Choice, x: Secret)
    requires AlikeShared(sh, sh', x) && AlikeOut(o, o', Owns(sh, t, x), x) && !o.Lock?
    requires AlikeChoices(ch, ch', Owns(sh, t, x)) && (o.Idle? || ch' == ch)
    ensures FreePair(sh, sh', t, sv, o, o', ch, ch', x)
  {
    hide AlikeShared, FreePair, Owns, AlikeIn, AlikeChoices, AlikeActions;
    assert forall a :: AlikeActions(a, a, Owns(sh, t, x)) by {
      SameActions(Owns(sh, t, x));
    }
    match o
    case Idle => FreeIdle(sh, sh', t, sv, ch, ch', x);
    case Dispatch(a) =>
      match o' {
        case Dispatch(a') => FreeDispatch(sh, sh', t, sv, a, a', ch, x);
      }
    case Gate(a) =>
      match o' {
        case Gate(a') => FreeGate(sh, sh', t, sv, a, a', ch, x);
      }
    case WithGame(a) =>
      match o' {
        case WithGame(a') => FreeGoing(sh, sh', t, sv, a, a', ch, x);
      }
    case _ => FreeSame(sh, sh', t, sv, o, ch, x);
  }

  lemma SameActions(owned: bool)
    ensures forall a :: AlikeActions(a, a, owned)
  {
  }
}
