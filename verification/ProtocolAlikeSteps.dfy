/** Alike worlds stay alike at every step that the round survives ACTIVE, whatever the interleaving. */
module ProtocolAlikeSteps {
  import opened Wrappers
  import opened Timestamps
  import opened Rules
  import opened Store
  import opened Registry
  import opened Snapshots
  import opened Protocol
  import opened ProtocolDoes
  import opened ProtocolLocks
  import opened ProtocolInvariant
  import opened ProtocolRely
  import opened ProtocolStoreEffects
  import opened ProtocolBody
  import opened ProtocolSafety
  import opened ProtocolRounds
  import opened ProtocolAlike

  /** The compared game is in the same state on both sides, or in a round that is ACTIVE. */
  predicate Hidden(sh: Shared, sh': Shared, g: GameId) {
    match (sh.State(g), sh'.State(g))
    case (Some(s), Some(s')) => s' == s || s.status == Active
    case _ => true
  }

  ghost predicate AlikeBody(e: Effect, e': Effect, to: To<InPc>, to': To<InPc>, g: GameId, x: Secret) {
    AlikeEffects(e, e', x) && AlikeIn(g, to.pc, to'.pc, false, x) && to'.serving == to.serving
  }

  // ----- Saves -----

  /** What is about to be saved is alike, unless it ends the round with a difference. */
  lemma CopiesAlike(sh: Shared, sh': Shared, g: GameId, row: Game, row': Game, c: Commit, c': Commit,
                    guest: Option<PlayerId>, x: Secret)
    requires AlikeShared(sh, sh', x) && SaveOk(sh, g, row, c, guest) && SaveOk(sh', g, row', c', guest)
    requires AlikeCopies(g, row, row', x) && AlikeCommits(g, c, c', x)
    requires row'.state == row.state || row.state.status == Active
    ensures AlikeRows(g, row, row', x)
  {
    hide AlikeShared, AlikeAttempts, Apply;
    RowsOf(sh, sh', g, x);
    match c
    case Changed(a) =>
      match c' {
        case Changed(a') =>
          if g == x.game {
            AlikeRules(sh.db.games[g].state, sh'.db.games[g].state, a, a', x.owner);
          }
        case Reconnected =>
      }
    case Reconnected =>
  }

  /** The same commit, or two throws of the owner. */
  predicate AlikeCommits(g: GameId, c: Commit, c': Commit, x: Secret) {
    c' == c || match c
      case Changed(a) => (match c' case Changed(a') => g == x.game
          && AlikeAttempts(a, a', x.owner) case Reconnected => false)
      case Reconnected => false
  }

  /** A saved game is in the state of the copy. */
  lemma SavedState(sh: Shared, g: GameId, row: Game, actor: Option<PlayerId>, now: Time, c: Commit,
      guest: Option<PlayerId>)
    requires SaveGame(sh.db, g, row, actor, now).Success?
    ensures Do(sh, Save(g, row, actor, now, c, guest)).State(g) == Some(row.state)
  {
  }

  /**
   * The copies are alike wherever they are saved and the round is not revealed; they are saved on both sides or none.
   */
  lemma HiddenSaves(sh: Shared, sh': Shared, g: GameId, row: Game, row': Game, actor: Option<PlayerId>, now: Time,
                    c: Commit, c': Commit, guest: Option<PlayerId>, x: Secret)
    requires AlikeShared(sh, sh', x) && SaveOk(sh, g, row, c, guest) && SaveOk(sh', g, row', c', guest)
    requires AlikeCopies(g, row, row', x) && AlikeCommits(g, c, c', x)
    requires Hidden(Do(sh, Save(g, row, actor, now, c, guest)), Do(sh', Save(g, row', actor, now, c', guest)), x.game)
    ensures SaveGame(sh.db, g, row, actor, now).Success? <==> SaveGame(sh'.db, g, row', actor, now).Success?
    ensures SaveGame(sh.db, g, row, actor, now).Success? ==> AlikeRows(g, row, row', x)
  {
    hide Do, SaveGame, SaveOk, AlikeDbs, AlikeSaves, AlikeOutbound, AlikeCommits, AlikeRows;
    AlikeStoring(sh.db, sh'.db, g, row, row', actor, now, x);
    if SaveGame(sh.db, g, row, actor, now).Success? {
      SavedState(sh, g, row, actor, now, c, guest);
      SavedState(sh', g, row', actor, now, c', guest);
      CopiesAlike(sh, sh', g, row, row', c, c', guest, x);
    }
  }

  /** What a save comes to. */
  lemma SavedIs(sh: Shared, g: GameId, row: Game, actor: Option<PlayerId>, c: Commit, ch: Choice,
      guest: Option<PlayerId>)
    requires !ch.fail
    ensures match Saved(sh, g, row, actor, c, ch)
      case Some(s) =>
        && SaveGame(sh.db, g, row, actor, ch.now).Success?
        && s.Version(g) == sh.Version(g) + (if g in sh.saves then 1 else 0)
      case None =>
        SaveGame(sh.db, g, row, actor, ch.now).Failure? && Do(sh, Save(g, row, actor, ch.now, c, guest)) == sh
  {
    hide SaveGame;
  }

  predicate AlikeResults(g: GameId, row: Game, row': Game, s: Option<Shared>, s': Option<Shared>, x: Secret) {
    match s
    case Some(n) => AlikeRows(g, row, row', x)
        && (match s' case Some(n') => n'.Version(g) == n.Version(g) case None => false)
    case None => s' == None
  }

  lemma SavedPair(sh: Shared, sh': Shared, g: GameId, row: Game, row': Game, actor: Option<PlayerId>, c: Commit,
                  c': Commit, ch: Choice, guest: Option<PlayerId>, x: Secret)
    requires AlikeShared(sh, sh', x) && SaveOk(sh, g, row, c, guest) && SaveOk(sh', g, row', c', guest) && !ch.fail
    requires AlikeCopies(g, row, row', x) && AlikeCommits(g, c, c', x)
    requires Hidden(Do(sh, Save(g, row, actor, ch.now, c, guest)), Do(sh', Save(g, row', actor, ch.now, c', guest)),
      x.game)
    ensures AlikeResults(g, row, row', Saved(sh, g, row, actor, c, ch), Saved(sh', g, row', actor, c', ch), x)
    ensures AlikeShared(Do(sh, Save(g, row, actor, ch.now, c, guest)), Do(sh', Save(g, row', actor, ch.now, c', guest)),
      x)
  {
    hide AlikeShared, Do, SaveGame, SaveOk, AlikeCommits, AlikeCopies, AlikeRows, Hidden, Saved;
    HiddenSaves(sh, sh', g, row, row', actor, ch.now, c, c', guest, x);
    SavedIs(sh, g, row, actor, c, ch, guest);
    SavedIs(sh', g, row', actor, c', ch, guest);
    SameRest(sh, sh', x);
    if SaveGame(sh.db, g, row, actor, ch.now).Success? {
      DoAlike(sh, sh', Save(g, row, actor, ch.now, c, guest), Save(g, row', actor, ch.now, c', guest), x);
    }
  }

  /** A step that saves, as long as the round is not revealed by it. */
  ghost predicate AlikeAfter(sh: Shared, sh': Shared, e: Effect, e': Effect, to: To<InPc>, to': To<InPc>, g: GameId,
                             x: Secret)
  {
    AlikeShared(Do(sh, e), Do(sh', e'), x) && AlikeIn(g, to.pc, to'.pc, false, x) && to'.serving == to.serving
  }

  /** A save that the store fails. */
  lemma FailingAlike(sh: Shared, sh': Shared, t: Tid, g: GameId, sv: Serving, i: InPc, i': InPc, ch: Choice, x: Secret)
    requires AlikeShared(sh, sh', x) && AlikePc(g, i, i', Owns(sh, t, x), x) && Saving(i) && ch.fail
    ensures AlikeAfter(sh, sh', BodyDoes(sh, t, g, i, ch), BodyDoes(sh', t, g, i', ch), Body(sh, t, g, sv, i, ch),
        Body(sh', t, g, sv, i', ch), g, x)
  {
    hide AlikeShared, AlikeCopies, AlikeActions, SaveGame, AttemptOf, AfterOk;
    DoAlike(sh, sh', Nothing, Nothing, x);
  }

  lemma ConnSaveAlike(sh: Shared, sh': Shared, t: Tid, g: GameId, sv: Serving, p: PlayerId, copy: Game, copy': Game,
                      seat: Seat, joined: bool, ch: Choice, x: Secret)
    requires AlikeShared(sh, sh', x) && AlikeCopies(g, copy, copy', x) && !ch.fail
    requires Local(sh, t, g, ConnSave(p, copy, seat, joined)) && Local(sh', t, g, ConnSave(p, copy', seat, joined))
    requires
      var i, i' := ConnSave(p, copy, seat, joined), ConnSave(p, copy', seat, joined);
      Hidden(Do(sh, BodyDoes(sh, t, g, i, ch)), Do(sh', BodyDoes(sh', t, g, i', ch)), x.game)
    ensures
      var i, i' := ConnSave(p, copy, seat, joined), ConnSave(p, copy', seat, joined);
      AlikeAfter(sh, sh', BodyDoes(sh, t, g, i, ch), BodyDoes(sh', t, g, i', ch), Body(sh, t, g, sv, i, ch),
          Body(sh', t, g, sv, i', ch), g, x)
  {
    hide SaveGame, Shared.Committed, Local, AlikeShared, AlikeRows, Do, Hidden, SaveOk;
    SavingAllowed(sh, t, g, ConnSave(p, copy, seat, joined), ch);
    SavingAllowed(sh', t, g, ConnSave(p, copy', seat, joined), ch);
    var c, guest := if joined then Changed(Join) else Reconnected, if joined then Some(p) else None;
    SavedPair(sh, sh', g, copy.(lastActive := ch.now), copy'.(lastActive := ch.now), Some(p), c, c, ch, guest, x);
  }

  lemma ActSaveAlike(sh: Shared, sh': Shared, t: Tid, g: GameId, sv: Serving, a: Action, a': Action, seat: Seat,
                     p: PlayerId, copy: Game, copy': Game, ch: Choice, x: Secret)
    requires AlikeShared(sh, sh', x) && AlikeCopies(g, copy, copy', x) && !ch.fail
    requires AlikeActions(a, a', g == x.game && seat == x.owner)
    requires Local(sh, t, g, ActSave(a, seat, p, copy)) && Local(sh', t, g, ActSave(a', seat, p, copy'))
    requires
      var i, i' := ActSave(a, seat, p, copy), ActSave(a', seat, p, copy');
      Hidden(Do(sh, BodyDoes(sh, t, g, i, ch)), Do(sh', BodyDoes(sh', t, g, i', ch)), x.game)
    ensures
      var i, i' := ActSave(a, seat, p, copy), ActSave(a', seat, p, copy');
      AlikeAfter(sh, sh', BodyDoes(sh, t, g, i, ch), BodyDoes(sh', t, g, i', ch), Body(sh, t, g, sv, i, ch),
          Body(sh', t, g, sv, i', ch), g, x)
  {
    hide SaveGame, Local, AlikeShared, AlikeRows, AlikeIn, Do, Hidden, SaveOk, Saved, AttemptOf, AfterOk, AlikeThen,
        AlikeCommits;
    SavingAllowed(sh, t, g, ActSave(a, seat, p, copy), ch);
    SavingAllowed(sh', t, g, ActSave(a', seat, p, copy'), ch);
    AlikeAttemptOf(a, a', seat, g, x);
    var row, row' := copy.(lastActive := ch.now), copy'.(lastActive := ch.now);
    SavedPair(sh, sh', g, row, row', Some(p), Changed(AttemptOf(a, seat)), Changed(AttemptOf(a', seat)), ch, None, x);
    match Saved(sh, g, row, Some(p), Changed(AttemptOf(a, seat)), ch) {
      case Some(s) => AlikeActed(t, sv.rid, a, a', seat, row, row', s.Version(g), g, x);
      case None => InItself(g, LeaveLock(SendErr(Internal)), x);
    }
  }

  lemma InItself(g: GameId, i: InPc, x: Secret)
    ensures AlikeIn(g, i, i, false, x)
  {
    hide AlikePc;
  }

  /** What follows a save of an action is alike. */
  lemma AlikeActed(t: Tid, rid: RequestId, a: Action, a': Action, seat: Seat, row: Game, row': Game, v: nat, g: GameId,
                   x: Secret)
    requires AlikeRows(g, row, row', x) && (a' == a || (a.Play? && a'.Play?))
    ensures AlikeIn(g, ActDetach(seat, row, v), ActDetach(seat, row', v), false, x)
    ensures AlikeIn(g, SendAll([t.Mine()], [Direct(rid, Ok)], map[], AfterOk(a, seat, row, v)),
        SendAll([t.Mine()], [Direct(rid, Ok)], map[], AfterOk(a', seat, row', v)), false, x)
  {
    hide AlikeRows, AfterOk, AlikeThen, AlikeLogs;
    AlikeAfterOk(a, a', seat, row, row', v, g, x);
    SameLogs([Direct(rid, Ok)], x);
    SendsIn(g, [t.Mine()], [Direct(rid, Ok)], [Direct(rid, Ok)], map[], AfterOk(a, seat, row, v),
        AfterOk(a', seat, row', v), x);
  }

  lemma AlikeAttemptOf(a: Action, a': Action, seat: Seat, g: GameId, x: Secret)
    requires AlikeActions(a, a', g == x.game && seat == x.owner)
    ensures AlikeCommits(g, Changed(AttemptOf(a, seat)), Changed(AttemptOf(a', seat)), x)
    ensures (a.DoLeave? <==> a'.DoLeave?) && (a' == a || (a.Play? && a'.Play?))
  {
  }

  lemma AlikeAfterOk(a: Action, a': Action, seat: Seat, row: Game, row': Game, v: nat, g: GameId, x: Secret)
    requires AlikeRows(g, row, row', x) && (a' == a || (a.Play? && a'.Play?))
    ensures AlikeThen(g, AfterOk(a, seat, row, v), AfterOk(a', seat, row', v), x)
  {
    assert row'.state.status == row.state.status;
    hide AlikeRows;
  }

  lemma ExpSaveAlike(sh: Shared, sh': Shared, t: Tid, g: GameId, sv: Serving, p: PlayerId, todo: seq<GameId>, mark: int,
                     copy: Game, copy': Game, seat: Seat, ch: Choice, x: Secret)
    requires AlikeShared(sh, sh', x) && AlikeCopies(g, copy, copy', x) && !ch.fail
    requires Local(sh, t, g, ExpSave(p, todo, mark, copy, seat))
        && Local(sh', t, g, ExpSave(p, todo, mark, copy', seat))
    requires
      var i, i' := ExpSave(p, todo, mark, copy, seat), ExpSave(p, todo, mark, copy', seat);
      Hidden(Do(sh, BodyDoes(sh, t, g, i, ch)), Do(sh', BodyDoes(sh', t, g, i', ch)), x.game)
    ensures
      var i, i' := ExpSave(p, todo, mark, copy, seat), ExpSave(p, todo, mark, copy', seat);
      AlikeAfter(sh, sh', BodyDoes(sh, t, g, i, ch), BodyDoes(sh', t, g, i', ch), Body(sh, t, g, sv, i, ch),
          Body(sh', t, g, sv, i', ch), g, x)
  {
    hide SaveGame, Shared.Committed, Local, AlikeShared, AlikeRows, Do, Hidden, SaveOk;
    SavingAllowed(sh, t, g, ExpSave(p, todo, mark, copy, seat), ch);
    SavingAllowed(sh', t, g, ExpSave(p, todo, mark, copy', seat), ch);
    SavedPair(sh, sh', g, copy, copy', None, Changed(Leave), Changed(Leave), ch, None, x);
  }

  // ----- Everything else under a lock -----

  /** What a goroutine does under the lock of g on both sides. */
  ghost predicate AlikeStep(sh: Shared, sh': Shared, t: Tid, g: GameId, sv: Serving, i: InPc, i': InPc, ch: Choice,
                            x: Secret)
  {
    AlikeBody(BodyDoes(sh, t, g, i, ch), BodyDoes(sh', t, g, i', ch), Body(sh, t, g, sv, i, ch),
        Body(sh', t, g, sv, i', ch), g, x)
  }

  lemma ReloadAlike(sh: Shared, sh': Shared, t: Tid, g: GameId, sv: Serving, p: PlayerId, digest: Digest, ch: Choice,
                    x: Secret)
    requires AlikeShared(sh, sh', x)
    ensures AlikeStep(sh, sh', t, g, sv, ConnReload(p, digest), ConnReload(p, digest), ch, x)
  {
    hide AlikeShared, AlikePc, AlikeRows, Load, Seating;
    SameLoad(sh, sh', g, digest, ch.fail, x);
    match Load(sh, g, digest, ch.fail) {
      case Success(row) =>
        match Load(sh', g, digest, ch.fail) {
          case Success(row') => SeatingAlike(g, row, row', p, x);
        }
      case Failure(_) =>
    }
  }

  /** Both refuse the seat, or both seat the player. */
  lemma SeatingAlike(g: GameId, row: Game, row': Game, p: PlayerId, x: Secret)
    requires AlikeRows(g, row, row', x)
    ensures match Seating(row, p)
      case Success(i) => (match Seating(row', p) case Success(i') => AlikeIn(g, i, i', false,
          x) case Failure(_) => false)
      case Failure(e) => Seating(row', p) == Failure(e)
  {
  }

  lemma GameLoadAlike(sh: Shared, sh': Shared, t: Tid, g: GameId, sv: Serving, cutoff: Time, ch: Choice, x: Secret)
    requires AlikeShared(sh, sh', x)
    ensures AlikeStep(sh, sh', t, g, sv, GameLoad(cutoff), GameLoad(cutoff), ch, x)
  {
    hide AlikeShared, AlikePc, Before;
    RowsOf(sh, sh', g, x);
  }

  lemma ExpReloadAlike(sh: Shared, sh': Shared, t: Tid, g: GameId, sv: Serving, p: PlayerId, todo: seq<GameId>,
      mark: int,
                       ch: Choice, x: Secret)
    requires AlikeShared(sh, sh', x)
    ensures AlikeStep(sh, sh', t, g, sv, ExpReload(p, todo, mark), ExpReload(p, todo, mark), ch, x)
  {
    hide AlikeShared, AlikePc, AlikeRows, Game.SeatOf, After;
    RowsOf(sh, sh', g, x);
    if g in sh.db.games {
      var row, row' := sh.db.games[g], sh'.db.games[g];
      SameSeating(row, row', g, p, x);
      if row.SeatOf(p).Some? {
        var copy, copy' := row.(state := After(row.state, Leave)), row'.(state := After(row'.state, Leave));
        CopyRows(g, row, row', After(row.state, Leave), After(row'.state, Leave), x);
        ExpSaveIn(g, p, todo, mark, copy, copy', row.SeatOf(p).value, x);
      }
    }
  }

  lemma CopyRows(g: GameId, row: Game, row': Game, s: State, s': State, x: Secret)
    requires AlikeRows(g, row, row', x) && (g != x.game ==> s' == s)
    ensures AlikeCopies(g, row.(state := s), row'.(state := s'), x)
  {
  }

  lemma ExpSaveIn(g: GameId, p: PlayerId, todo: seq<GameId>, mark: int, copy: Game, copy': Game, seat: Seat, x: Secret)
    requires AlikeCopies(g, copy, copy', x)
    ensures AlikeIn(g, ExpSave(p, todo, mark, copy, seat), ExpSave(p, todo, mark, copy', seat), false, x)
  {
  }

  lemma SameSeating(row: Game, row': Game, g: GameId, p: PlayerId, x: Secret)
    requires AlikeRows(g, row, row', x)
    ensures row'.SeatOf(p) == row.SeatOf(p) && row'.state.status == row.state.status && (g != x.game ==> row' == row)
  {
  }

  lemma ActCheckAlike(sh: Shared, sh': Shared, t: Tid, g: GameId, sv: Serving, a: Action, a': Action, ch: Choice,
      x: Secret)
    requires AlikeShared(sh, sh', x) && AlikeActions(a, a', Owns(sh, t, x))
    ensures AlikeStep(sh, sh', t, g, sv, ActCheck(a), ActCheck(a'), ch, x)
  {
    hide AlikeShared;
    SameRest(sh, sh', x);
  }

  predicate AlikeApplied(r: Result<State, RuleError>, r': Result<State, RuleError>, g: GameId, row: Game, row': Game,
                         x: Secret)
  {
    match r
    case Success(s) => (match r' case Success(s') => AlikeCopies(g, row.(state := s), row'.(state := s'),
        x) case Failure(_) => false)
    case Failure(e) => r' == Failure(e)
  }

  lemma ResultsAlike(row: Game, row': Game, g: GameId, a: Action, a': Action, seat: Seat, x: Secret)
    requires AlikeRows(g, row, row', x) && AlikeActions(a, a', g == x.game && seat == x.owner)
    ensures AlikeApplied(Apply(row.state, AttemptOf(a, seat)), Apply(row'.state, AttemptOf(a', seat)), g, row, row', x)
  {
    hide Apply, AttemptOf, AlikeAttempts;
    AlikeAttemptOf(a, a', seat, g, x);
    if g == x.game {
      assert AlikeAttempts(AttemptOf(a, seat), AttemptOf(a', seat), x.owner) by {
        SameAttempt(AttemptOf(a, seat), x.owner);
      }
      AlikeRefusals(row.state, row'.state, AttemptOf(a, seat), AttemptOf(a', seat), x.owner);
    }
  }

  lemma SameAttempt(a: Attempt, owner: Seat)
    ensures AlikeAttempts(a, a, owner)
  {
  }

  lemma ActLoadAlike(sh: Shared, sh': Shared, t: Tid, g: GameId, sv: Serving, a: Action, a': Action, seat: Seat,
                     p: PlayerId, ch: Choice, x: Secret)
    requires AlikeShared(sh, sh', x) && AlikeActions(a, a', g == x.game && seat == x.owner)
    ensures AlikeStep(sh, sh', t, g, sv, ActLoad(a, seat, p), ActLoad(a', seat, p), ch, x)
  {
    hide AlikeShared, AlikePc, Apply, AttemptOf, AlikeRows, AlikeCopies;
    RowsOf(sh, sh', g, x);
    if g in sh.db.games {
      var row, row' := sh.db.games[g], sh'.db.games[g];
      ResultsAlike(row, row', g, a, a', seat, x);
      match Apply(row.state, AttemptOf(a, seat)) {
        case Success(s) =>
          match Apply(row'.state, AttemptOf(a', seat)) {
            case Success(s') => ActSaveIn(g, a, a', seat, p, row.(state := s), row'.(state := s'), x);
          }
        case Failure(_) =>
      }
    }
  }

  lemma ActSaveIn(g: GameId, a: Action, a': Action, seat: Seat, p: PlayerId, copy: Game, copy': Game, x: Secret)
    requires AlikeCopies(g, copy, copy', x) && AlikeActions(a, a', g == x.game && seat == x.owner)
    ensures AlikeIn(g, ActSave(a, seat, p, copy), ActSave(a', seat, p, copy'), false, x)
  {
  }

  /** Loops that send alike messages and go on alike. */
  lemma SendsIn(g: GameId, todo: seq<ConnId>, msgs: seq<Msg>, msgs': seq<Msg>, seats: map<ConnId, Seat>, k: Then,
                k': Then, x: Secret)
    requires AlikeLogs(msgs, msgs', x) && AlikeThen(g, k, k', x)
    ensures AlikeIn(g, SendAll(todo, msgs, seats, k), SendAll(todo, msgs', seats, k'), false, x)
  {
    hide AlikeLogs, AlikeThen;
  }

  lemma SnapLogs(before: seq<Msg>, g: GameId, v: nat, view: GameView, view': GameView, you: Seat, rid: RequestId,
      x: Secret)
    requires AlikeViews(g, view, view', x)
    ensures AlikeLogs(before + [StateIs(Snap(g, v, view, you))], before + [StateIs(Snap(g, v, view', you))], x)
    ensures AlikeLogs([Direct(rid, OkConnected(Snap(g, v, view, you)))],
        [Direct(rid, OkConnected(Snap(g, v, view', you)))],
        x)
  {
    hide AlikeViews;
  }

  lemma SameLogs(log: seq<Msg>, x: Secret)
    ensures AlikeLogs(log, log, x)
  {
  }

  lemma ThensConnList(g: GameId, seat: Seat, view: GameView, view': GameView, v: nat, x: Secret)
    requires AlikeViews(g, view, view', x)
    ensures AlikeThen(g, ThenConnList(seat, view, v), ThenConnList(seat, view', v), x)
    ensures AlikeIn(g, CastList(view, v), CastList(view', v), false, x)
  {
    hide AlikeViews;
  }

  lemma ConnViewAlike(sh: Shared, sh': Shared, t: Tid, g: GameId, sv: Serving, seat: Seat, row: Game, row': Game,
      v: nat, joined: bool,
                      was: bool, ch: Choice, x: Secret)
    requires AlikeShared(sh, sh', x) && AlikeRows(g, row, row', x)
    ensures AlikeStep(sh, sh', t, g, sv, ConnView(seat, row, v, joined, was), ConnView(seat, row', v, joined, was), ch,
        x)
  {
    hide AlikeShared, AlikePc, AlikeRows, AlikeViews, AlikeThen, AlikeMsgs, AlikeLogs, Shared.View;
    AlikeView(sh, sh', g, row, row', x);
    var view, view' := sh.View(g, row), sh'.View(g, row');
    SnapLogs([], g, v, view, view', seat, sv.rid, x);
    ThensConnList(g, seat, view, view', v, x);
    var k := if was then ThenLeave(Idle) else ThenConnList(seat, view, v);
    var k' := if was then ThenLeave(Idle) else ThenConnList(seat, view', v);
    assert AlikeThen(g, k, k', x) by {
      SameThen(g, ThenLeave(Idle), x);
    }
    SendsIn(g, [t.Mine()], [Direct(sv.rid, OkConnected(Snap(g, v, view, seat)))],
        [Direct(sv.rid, OkConnected(Snap(g, v, view', seat)))], map[], k, k', x);
  }

  lemma CastViewAlike(sh: Shared, sh': Shared, t: Tid, g: GameId, sv: Serving, row: Game, row': Game, v: nat,
      ch: Choice, x: Secret)
    requires AlikeShared(sh, sh', x) && AlikeRows(g, row, row', x)
    ensures AlikeStep(sh, sh', t, g, sv, CastView(row, v), CastView(row', v), ch, x)
  {
    hide AlikeShared, AlikePc, AlikeRows, AlikeViews, AlikeThen, AlikeMsgs, AlikeLogs, Shared.View;
    AlikeView(sh, sh', g, row, row', x);
    ThensConnList(g, Host, sh.View(g, row), sh'.View(g, row'), v, x);
  }

  lemma CloseViewAlike(sh: Shared, sh': Shared, t: Tid, g: GameId, sv: Serving, reason: Reason, side: Seat, row: Game,
                       row': Game, v: nat, o: OutPc, ch: Choice, x: Secret)
    requires AlikeShared(sh, sh', x) && AlikeRows(g, row, row', x)
    ensures AlikeStep(sh, sh', t, g, sv, CloseView(reason, side, row, v, o), CloseView(reason, side, row', v, o), ch, x)
  {
    hide AlikeShared, AlikePc, AlikeRows, AlikeViews, AlikeThen, AlikeMsgs, AlikeLogs, Shared.View;
    AlikeView(sh, sh', g, row, row', x);
    ViewedAlike(g, reason, side, row, row', v, None, None, o, x);
    ViewedAlike(g, reason, side, row, row', v, Some(sh.View(g, row)), Some(sh'.View(g, row')), o, x);
  }

  lemma ViewedAlike(g: GameId, reason: Reason, side: Seat, row: Game, row': Game, v: nat, viewed: Option<GameView>,
                    viewed': Option<GameView>, o: OutPc, x: Secret)
    requires AlikeRows(g, row, row', x) && AlikeViewed(g, viewed, viewed', x)
    ensures AlikeIn(g, CloseList(reason, side, row, v, viewed, o), CloseList(reason, side, row', v, viewed', o), false,
        x)
  {
    hide AlikeRows, AlikeViewed;
  }

  lemma SameThen(g: GameId, k: Then, x: Secret)
    ensures AlikeThen(g, k, k, x)
  {
  }

  lemma ConnListAlike(sh: Shared, sh': Shared, t: Tid, g: GameId, sv: Serving, seat: Seat, view: GameView,
      view': GameView,
                      v: nat, ch: Choice, x: Secret)
    requires AlikeShared(sh, sh', x) && AlikeViews(g, view, view', x)
    ensures AlikeStep(sh, sh', t, g, sv, ConnList(seat, view, v), ConnList(seat, view', v), ch, x)
  {
    hide AlikeShared, AlikePc, AlikeRows, AlikeViews, AlikeThen, AlikeMsgs, AlikeLogs;
    SnapLogs([OpponentConnected(seat)], g, v, view, view', seat.Other(), sv.rid, x);
    SameThen(g, ThenLeave(Idle), x);
    SendsIn(g, ch.conns, [OpponentConnected(seat)] + [StateIs(Snap(g, v, view, seat.Other()))],
        [OpponentConnected(seat)] + [StateIs(Snap(g, v, view', seat.Other()))], map[], ThenLeave(Idle),
            ThenLeave(Idle), x);
    assert [OpponentConnected(seat)] + [StateIs(Snap(g, v, view, seat.Other()))]
      == [OpponentConnected(seat), StateIs(Snap(g, v, view, seat.Other()))];
    assert [OpponentConnected(seat)] + [StateIs(Snap(g, v, view', seat.Other()))]
      == [OpponentConnected(seat), StateIs(Snap(g, v, view', seat.Other()))];
  }

  lemma TellAlike(sh: Shared, sh': Shared, t: Tid, g: GameId, sv: Serving, e: Msg, row: Game, row': Game, v: nat,
      ch: Choice, x: Secret)
    requires AlikeShared(sh, sh', x) && AlikeRows(g, row, row', x)
    ensures AlikeStep(sh, sh', t, g, sv, Tell(e, row, v), Tell(e, row', v), ch, x)
  {
    hide AlikeShared, AlikePc, AlikeRows, AlikeViews, AlikeThen, AlikeMsgs, AlikeLogs;
    SameLogs([e], x);
    ThensBroadcast(g, row, row', v, x);
    SendsIn(g, ch.conns, [e], [e], map[], ThenBroadcast(row, v), ThenBroadcast(row', v), x);
  }

  lemma ThensBroadcast(g: GameId, row: Game, row': Game, v: nat, x: Secret)
    requires AlikeRows(g, row, row', x)
    ensures AlikeThen(g, ThenBroadcast(row, v), ThenBroadcast(row', v), x)
  {
    hide AlikeRows;
  }

  lemma CastListAlike(sh: Shared, sh': Shared, t: Tid, g: GameId, sv: Serving, view: GameView, view': GameView, v: nat,
      ch: Choice, x: Secret)
    requires AlikeShared(sh, sh', x) && AlikeViews(g, view, view', x)
    ensures AlikeStep(sh, sh', t, g, sv, CastList(view, v), CastList(view', v), ch, x)
  {
    hide AlikeShared, AlikePc, AlikeRows, AlikeViews, AlikeThen, AlikeMsgs, AlikeLogs;
    SameRest(sh, sh', x);
    assert sh'.SeatsIn(g) == sh.SeatsIn(g);
    SnapLogs([], g, v, view, view', Host, sv.rid, x);
    SameThen(g, ThenLeave(Idle), x);
    assert [] + [StateIs(Snap(g, v, view, Host))] == [StateIs(Snap(g, v, view, Host))];
    assert [] + [StateIs(Snap(g, v, view', Host))] == [StateIs(Snap(g, v, view', Host))];
    SendsIn(g, ch.conns, [StateIs(Snap(g, v, view, Host))], [StateIs(Snap(g, v, view', Host))], sh.SeatsIn(g),
        ThenLeave(Idle), ThenLeave(Idle), x);
  }

  lemma CloseListAlike(sh: Shared, sh': Shared, t: Tid, g: GameId, sv: Serving, reason: Reason, side: Seat, row: Game,
                       row': Game, v: nat, viewed: Option<GameView>, viewed': Option<GameView>, o: OutPc, ch: Choice,
                           x: Secret)
    requires AlikeShared(sh, sh', x) && AlikeViewed(g, viewed, viewed', x)
    ensures AlikeStep(sh, sh', t, g, sv, CloseList(reason, side, row, v, viewed, o),
        CloseList(reason, side, row', v, viewed', o), ch, x)
  {
    hide AlikeShared, AlikePc, AlikeRows, AlikeViews, AlikeThen, AlikeMsgs, AlikeLogs, DetachSet, Final;
    SameRest(sh, sh', x);
    assert sh'.SeatsIn(g) == sh.SeatsIn(g);
    FinalAlike(g, v, reason, side, viewed, viewed', sv.rid, x);
    SameThen(g, ThenLeave(o), x);
    SendsIn(g, ch.conns, [GameOver(reason, side)] + Final(g, v, viewed),
        [GameOver(reason, side)] + Final(g, v, viewed'),
        sh.SeatsIn(g), ThenLeave(o), ThenLeave(o), x);
  }

  lemma FinalAlike(g: GameId, v: nat, reason: Reason, side: Seat, viewed: Option<GameView>, viewed': Option<GameView>,
                   rid: RequestId, x: Secret)
    requires AlikeViewed(g, viewed, viewed', x)
    ensures AlikeLogs([GameOver(reason, side)] + Final(g, v, viewed), [GameOver(reason, side)] + Final(g, v, viewed'),
        x)
  {
    hide AlikeViews, AlikeLogs;
    match viewed
    case Some(view) => SnapLogs([GameOver(reason, side)], g, v, view, viewed'.value, Host, rid, x);
    case None => SameLogs([GameOver(reason, side)] + Final(g, v, viewed), x);
  }

  lemma AttachAlike(sh: Shared, sh': Shared, t: Tid, g: GameId, sv: Serving, seat: Seat, row: Game, row': Game, v: nat,
                    joined: bool, ch: Choice, x: Secret)
    requires AlikeShared(sh, sh', x) && AlikeRows(g, row, row', x)
    ensures AlikeStep(sh, sh', t, g, sv, ConnAttach(seat, row, v, joined), ConnAttach(seat, row', v, joined), ch, x)
  {
    hide AlikeShared, AlikePc, AlikeRows, AlikeViews, AlikeThen, AlikeMsgs, AlikeLogs, Attach;
    SameRest(sh, sh', x);
    AttachedAlike(g, seat, row, row', v, joined, sh.Place(t.Mine()).In(g), x);
  }

  lemma AttachedAlike(g: GameId, seat: Seat, row: Game, row': Game, v: nat, joined: bool, was: bool, x: Secret)
    requires AlikeRows(g, row, row', x)
    ensures AlikeIn(g, ConnView(seat, row, v, joined, was), ConnView(seat, row', v, joined, was), false, x)
  {
    hide AlikeRows;
  }

  lemma ActDetachAlike(sh: Shared, sh': Shared, t: Tid, g: GameId, sv: Serving, seat: Seat, row: Game, row': Game,
      v: nat, ch: Choice, x: Secret)
    requires AlikeShared(sh, sh', x) && AlikeRows(g, row, row', x)
    ensures AlikeStep(sh, sh', t, g, sv, ActDetach(seat, row, v), ActDetach(seat, row', v), ch, x)
  {
    hide AlikeShared, AlikePc, AlikeRows, AlikeViews, AlikeThen, AlikeMsgs, AlikeLogs, Detach;
    SameLogs([Direct(sv.rid, Ok)], x);
    ThensClose(g, seat, row, row', v, x);
    SendsIn(g, [t.Mine()], [Direct(sv.rid, Ok)], [Direct(sv.rid, Ok)], map[], ThenClose(PlayerLeft, seat, row, v, Idle),
        ThenClose(PlayerLeft, seat, row', v, Idle), x);
  }

  lemma ThensClose(g: GameId, seat: Seat, row: Game, row': Game, v: nat, x: Secret)
    requires AlikeRows(g, row, row', x)
    ensures AlikeThen(g, ThenClose(PlayerLeft, seat, row, v, Idle), ThenClose(PlayerLeft, seat, row', v, Idle), x)
  {
    hide AlikeRows;
  }

  lemma DetachAlike(sh: Shared, sh': Shared, t: Tid, g: GameId, sv: Serving, d: ConnId, tries: int, k: Resume,
      ch: Choice, x: Secret)
    requires AlikeShared(sh, sh', x)
    ensures AlikeStep(sh, sh', t, g, sv, DetachCheck(d, tries, k), DetachCheck(d, tries, k), ch, x)
  {
    hide AlikeShared, AlikePc, AlikeRows, AlikeViews, AlikeThen, AlikeMsgs, AlikeLogs, Detach;
    SameRest(sh, sh', x);
  }

  lemma ExpDetachAlike(sh: Shared, sh': Shared, t: Tid, g: GameId, sv: Serving, p: PlayerId, todo: seq<GameId>,
      mark: int,
                       seat: Seat, row: Game, row': Game, v: nat, ch: Choice, x: Secret)
    requires AlikeShared(sh, sh', x) && AlikeRows(g, row, row', x)
    ensures AlikeStep(sh, sh', t, g, sv, ExpDetach(p, todo, mark, seat, row, v),
        ExpDetach(p, todo, mark, seat, row', v), ch, x)
  {
    hide AlikeShared, AlikePc, AlikeRows, AlikeViews, AlikeThen, AlikeMsgs, AlikeLogs, DetachSet;
    SameRest(sh, sh', x);
    assert (set d | d in sh'.reg.Attached(g) && sh'.PlayerOn(d) == Some(p))
      == (set d | d in sh.reg.Attached(g) && sh.PlayerOn(d) == Some(p));
    ClosingAlike(g, seat, row, row', v, ExpNext(p, todo, mark), x);
  }

  lemma ClosingAlike(g: GameId, seat: Seat, row: Game, row': Game, v: nat, o: OutPc, x: Secret)
    requires AlikeRows(g, row, row', x)
    ensures AlikeIn(g, CloseView(PlayerExpired, seat, row, v, o), CloseView(PlayerExpired, seat, row', v, o), false, x)
  {
    hide AlikeRows;
  }

  lemma SendsAlike(sh: Shared, sh': Shared, t: Tid, g: GameId, sv: Serving, todo: seq<ConnId>, msgs: seq<Msg>,
                   msgs': seq<Msg>, seats: map<ConnId, Seat>, next: nat, k: Then, k': Then, ch: Choice, x: Secret)
    requires AlikeLogs(msgs, msgs', x) && AlikeThen(g, k, k', x)
    ensures AlikeStep(sh, sh', t, g, sv, Sends(todo, msgs, seats, next, k), Sends(todo, msgs', seats, next, k'), ch, x)
  {
    hide AlikeMsgs, AlikeRows, AlikeViews, Shared.Sent, Rendered;
    if todo != [] && next < |msgs| {
      AlikeRendered(msgs[next], msgs'[next], seats, todo[0], x);
    }
  }

  lemma DeletingAlike(sh: Shared, sh': Shared, t: Tid, g: GameId, sv: Serving, i: InPc, ch: Choice, x: Secret)
    requires AlikeShared(sh, sh', x) && (i.GameDetach? || i.GameClose? || i.GameDelete?)
    ensures AlikeStep(sh, sh', t, g, sv, i, i, ch, x)
  {
    hide AlikeShared, AlikePc, Shared.Closed, DeleteGame, DetachSet;
    SameRest(sh, sh', x);
  }

  /** A step under a lock that does not save. */
  lemma StepsAlike(sh: Shared, sh': Shared, t: Tid, g: GameId, sv: Serving, i: InPc, i': InPc, ch: Choice, x: Secret)
    requires AlikeShared(sh, sh', x) && AlikeIn(g, i, i', Owns(sh, t, x), x) && !i.LeaveLock? && !Saving(i)
    ensures AlikeStep(sh, sh', t, g, sv, i, i', ch, x)
  {
    hide AlikeShared, AlikeStep, Owns, AlikeRows, AlikeViews, AlikeThen, AlikeLogs;
    assert AlikePc(g, i, i', Owns(sh, t, x), x) || i' == i;
    match i
    case ConnReload(p, digest) => ReloadAlike(sh, sh', t, g, sv, p, digest, ch, x);
    case ConnAttach(seat, row, v, joined) =>
      RowItself(g, row, x);
      AttachAlike(sh, sh', t, g, sv, seat, row, i'.row, v, joined, ch, x);
    case ConnView(seat, row, v, joined, was) =>
      RowItself(g, row, x);
      ConnViewAlike(sh, sh', t, g, sv, seat, row, i'.row, v, joined, was, ch, x);
    case ConnList(seat, view, v) =>
      ViewItself(g, view, x);
      ConnListAlike(sh, sh', t, g, sv, seat, view, i'.view, v, ch, x);
    case ActCheck(a) => ActCheckAlike(sh, sh', t, g, sv, a, i'.action, ch, x);
    case ActLoad(a, seat, p) => ActLoadAlike(sh, sh', t, g, sv, a, i'.action, seat, p, ch, x);
    case ActDetach(seat, row, v) =>
      RowItself(g, row, x);
      ActDetachAlike(sh, sh', t, g, sv, seat, row, i'.row, v, ch, x);
    case Tell(e, row, v) =>
      RowItself(g, row, x);
      TellAlike(sh, sh', t, g, sv, e, row, i'.row, v, ch, x);
    case CastView(row, v) =>
      RowItself(g, row, x);
      CastViewAlike(sh, sh', t, g, sv, row, i'.row, v, ch, x);
    case CastList(view, v) =>
      ViewItself(g, view, x);
      CastListAlike(sh, sh', t, g, sv, view, i'.view, v, ch, x);
    case CloseView(reason, side, row, v, o) =>
      RowItself(g, row, x);
      CloseViewAlike(sh, sh', t, g, sv, reason, side, row, i'.row, v, o, ch, x);
    case CloseList(reason, side, row, v, viewed, o) =>
      ViewedItself(g, viewed, x);
      CloseListAlike(sh, sh', t, g, sv, reason, side, row, i'.row, v, viewed, i'.viewed, o, ch, x);
    case Sends(todo, msgs, seats, next, k) =>
      SameLogs(msgs, x);
      SameThen(g, k, x);
      SendsAlike(sh, sh', t, g, sv, todo, msgs, i'.msgs, seats, next, k, i'.after, ch, x);
    case DetachCheck(d, tries, k) => DetachAlike(sh, sh', t, g, sv, d, tries, k, ch, x);
    case ExpReload(p, todo, mark) => ExpReloadAlike(sh, sh', t, g, sv, p, todo, mark, ch, x);
    case ExpDetach(p, todo, mark, seat, row, v) =>
      RowItself(g, row, x);
      ExpDetachAlike(sh, sh', t, g, sv, p, todo, mark, seat, row, i'.row, v, ch, x);
    case GameLoad(cutoff) => GameLoadAlike(sh, sh', t, g, sv, cutoff, ch, x);
    case _ => DeletingAlike(sh, sh', t, g, sv, i, ch, x);
  }

  lemma RowItself(g: GameId, row: Game, x: Secret)
    ensures AlikeRows(g, row, row, x) && AlikeCopies(g, row, row, x)
  {
  }

  lemma ViewItself(g: GameId, view: GameView, x: Secret)
    ensures AlikeViews(g, view, view, x)
  {
  }

  lemma ViewedItself(g: GameId, viewed: Option<GameView>, x: Secret)
    ensures AlikeViewed(g, viewed, viewed, x)
  {
  }

  lemma SavingsAlike(sh: Shared, sh': Shared, t: Tid, g: GameId, sv: Serving, i: InPc, i': InPc, ch: Choice, x: Secret)
    requires AlikeShared(sh, sh', x) && Local(sh, t, g, i) && Local(sh', t, g, i') && Saving(i)
    requires AlikeIn(g, i, i', Owns(sh, t, x), x)
    requires Hidden(Do(sh, BodyDoes(sh, t, g, i, ch)), Do(sh', BodyDoes(sh', t, g, i', ch)), x.game)
    ensures AlikeAfter(sh, sh', BodyDoes(sh, t, g, i, ch), BodyDoes(sh', t, g, i', ch), Body(sh, t, g, sv, i, ch),
        Body(sh', t, g, sv, i', ch), g, x)
  {
    hide AlikeShared, AlikeAfter, Owns, AlikeRows, AlikeCopies, Body, BodyDoes, Do, Hidden, Local;
    assert AlikePc(g, i, i', Owns(sh, t, x), x) || i' == i;
    RowItself(g, i.copy, x);
    if ch.fail {
      FailingAlike(sh, sh', t, g, sv, i, i', ch, x);
    } else {
      match i
      case ConnSave(p, copy, seat, joined) => ConnSaveAlike(sh, sh', t, g, sv, p, copy, i'.copy, seat, joined, ch, x);
      case ActSave(a, seat, p, copy) => ActSaveAlike(sh, sh', t, g, sv, a, i'.action, seat, p, copy, i'.copy, ch, x);
      case ExpSave(p, todo, mark, copy, seat) =>
        ExpSaveAlike(sh, sh', t, g, sv, p, todo, mark, copy, i'.copy, seat, ch, x);
    }
  }

  /** A step under a lock, as long as the round is not revealed by it. */
  lemma BodyAlike(sh: Shared, sh': Shared, t: Tid, g: GameId, sv: Serving, i: InPc, i': InPc, ch: Choice, x: Secret)
    requires AlikeShared(sh, sh', x) && Local(sh, t, g, i) && Local(sh', t, g, i') && !i.LeaveLock?
    requires AlikeIn(g, i, i', Owns(sh, t, x), x)
    requires Hidden(Do(sh, BodyDoes(sh, t, g, i, ch)), Do(sh', BodyDoes(sh', t, g, i', ch)), x.game)
    ensures AlikeAfter(sh, sh', BodyDoes(sh, t, g, i, ch), BodyDoes(sh', t, g, i', ch), Body(sh, t, g, sv, i, ch),
        Body(sh', t, g, sv, i', ch), g, x)
  {
    hide AlikeShared, AlikeIn, AlikeEffects, Owns, Body, BodyDoes, Do, Hidden, Local;
    if Saving(i) {
      SavingsAlike(sh, sh', t, g, sv, i, i', ch, x);
    } else {
      StepsAlike(sh, sh', t, g, sv, i, i', ch, x);
      DoAlike(sh, sh', BodyDoes(sh, t, g, i, ch), BodyDoes(sh', t, g, i', ch), x);
    }
  }

  // ----- Worlds -----

  lemma MoreOwned(p: Phase, p': Phase, owned: bool, owned': bool, x: Secret)
    requires AlikePhases(p, p', owned, x) && (owned ==> owned')
    ensures AlikePhases(p, p', owned', x)
  {
    hide AlikeRows, AlikeViews, AlikeCopies, AlikeThen, AlikeLogs;
  }

  lemma ThreadAlike(w: World, w': World, t: Tid, x: Secret)
    requires AlikeWorlds(w, w', x) && t in w.threads
    ensures t in w'.threads && AlikeThread(w, w', t, x)
  {
    hide AlikeThread, AlikeShared;
  }

  lemma SharedAlike(w: World, w': World, x: Secret)
    requires AlikeWorlds(w, w', x)
    ensures AlikeShared(w.sh, w'.sh, x) && w'.locks == w.locks && w'.objs == w.objs && w'.threads.Keys == w.threads.Keys
  {
    hide AlikeThread, AlikeShared;
  }

  /** What the others do keeps a goroutine's connection in the owner's seat or nowhere. */
  lemma OwnsStable(w: World, e: Event, t: Tid, x: Secret)
    requires Inv(w) && Enabled(w, e) && t in w.threads && Mover(e) != Some(t)
    ensures Owns(w.sh, t, x) ==> Owns(Step(w, e).sh, t, x)
  {
    hide LockInv, PhaseOk, Settled, LockFree, Enabled, Step, DbOk, SeatsHeld, LogsOk, HistoriesOk, PlayersKept,
        RowsKept,
        ChansKept, StaleKept;
    StepRely(w, e);
    assert t.Reader? ==> t.Mine() in w.sh.reg.link && t == Reader(t.Mine());
  }

  /** Whoever does not step stays alike. */
  lemma OtherAlike(w: World, w': World, e: Event, e': Event, t: Tid, x: Secret)
    requires Inv(w) && Enabled(w, e) && t in w.threads && Mover(e) != Some(t) && AlikeThread(w, w', t, x)
    requires Step(w, e).On(t) == w.On(t) && Step(w', e').On(t) == w'.On(t)
    requires t in Step(w, e).threads && t in Step(w', e').threads
    ensures AlikeThread(Step(w, e), Step(w', e'), t, x)
  {
    hide Inv, Enabled, Step, AlikePhases, Owns;
    OwnsStable(w, e, t, x);
    MoreOwned(w.Phase(t), w'.Phase(t), Owns(w.sh, t, x), Owns(Step(w, e).sh, t, x), x);
  }

  /** The same event, but for the throw that the owner asks for while its connection is in its seat or nowhere. */
  ghost predicate AlikeEvents(w: World, e: Event, e': Event, x: Secret) {
    || e' == e
    || (match e
        case Go(t, ch) =>
          (match e'
           case Go(t', ch') => t' == t && w.Phase(t) == Out(Idle) && AlikeChoices(ch, ch', Owns(w.sh, t, x))
           case _ => false)
        case _ => false)
  }

  /** What goroutine t does. */
  ghost predicate AlikeMoves(n: World, n': World, t: Tid, x: Secret) {
    && AlikeShared(n.sh, n'.sh, x) && n'.locks == n.locks && n'.objs == n.objs && n'.Served(t) == n.Served(t)
    && AlikePhases(n.Phase(t), n'.Phase(t), Owns(n.sh, t, x), x)
  }

  /** Outside locks. */
  lemma FreeMoves(w: World, w': World, t: Tid, o: OutPc, o': OutPc, ch: Choice, ch': Choice, x: Secret)
    requires Inv(w) && AlikeWorlds(w, w', x) && t in w.threads && w.Phase(t) == Out(o) && w'.Phase(t) == Out(o')
    requires AlikeChoices(ch, ch', Owns(w.sh, t, x)) && (o.Idle? || ch' == ch) && !o.Lock?
    ensures AlikeMoves(RunThread(w, t, ch), RunThread(w', t, ch'), t, x)
  {
    hide Inv, AlikeWorlds, AlikeShared, AlikeOut, AlikeEffects, Free, FreeDoes, Do, AlikeChoices, Rely;
    SharedAlike(w, w', x);
    ThreadAlike(w, w', t, x);
    FreeOf(w, t, ch);
    NotLocking(o, o', Owns(w.sh, t, x), x);
    var sv := w.Served(t);
    FreeAlike(w.sh, w'.sh, t, sv, o, o', ch, ch', x);
    FreeDo(w.sh, t, sv, o, ch);
    FreeDo(w'.sh, t, sv, o', ch');
    DoAlike(w.sh, w'.sh, FreeDoes(w.sh, t, sv, o, ch), FreeDoes(w'.sh, t, sv, o', ch'), x);
    DoPlaces(w.sh, FreeDoes(w.sh, t, sv, o, ch), t.Mine());
    FreeSitsNot(w.sh, t, sv, o, ch);
    var n, n' := RunThread(w, t, ch), RunThread(w', t, ch');
    MoreOwned(n.Phase(t), n'.Phase(t), Owns(w.sh, t, x), Owns(n.sh, t, x), x);
  }

  lemma NotLocking(o: OutPc, o': OutPc, owned: bool, x: Secret)
    requires AlikeOut(o, o', owned, x)
    ensures o.Lock? <==> o'.Lock?
  {
    hide AlikeIn;
  }

  /** Under a lock. */
  lemma BodyMoves(w: World, w': World, t: Tid, g: GameId, l: LockRef, i: InPc, i': InPc, ch: Choice, x: Secret)
    requires Inv(w) && Inv(w') && AlikeWorlds(w, w', x) && t in w.threads && !i.LeaveLock?
    requires w.Phase(t) == Inside(g, l, i) && w'.Phase(t) == Inside(g, l, i')
    requires Hidden(RunThread(w, t, ch).sh, RunThread(w', t, ch).sh, x.game)
    ensures AlikeMoves(RunThread(w, t, ch), RunThread(w', t, ch), t, x)
  {
    hide Inv, AlikeWorlds, AlikeShared, AlikePc, Body, BodyDoes, Do, Rely, Local, Hidden, Owns;
    SharedAlike(w, w', x);
    ThreadAlike(w, w', t, x);
    LeaveAlike(g, i, i', Owns(w.sh, t, x), x);
    BodyOf(w, t, ch);
    BodyOf(w', t, ch);
    var sv := w.Served(t);
    BodyDo(w.sh, t, g, sv, i, ch);
    BodyDo(w'.sh, t, g, sv, i', ch);
    BodyAlike(w.sh, w'.sh, t, g, sv, i, i', ch, x);
    var n, n' := RunThread(w, t, ch), RunThread(w', t, ch);
    MoreOwned(n.Phase(t), n'.Phase(t), false, Owns(n.sh, t, x), x);
  }

  lemma LeaveAlike(g: GameId, i: InPc, i': InPc, owned: bool, x: Secret)
    requires AlikeIn(g, i, i', owned, x)
    ensures i.LeaveLock? <==> i'.LeaveLock?
    ensures i.LeaveLock? ==> i' == i
  {
  }

  /** To or from the users of a lock. */
  lemma UsingMoves(w: World, w': World, t: Tid, ch: Choice, x: Secret)
    requires AlikeWorlds(w, w', x) && t in w.threads
    requires match w.Phase(t) case Out(o) => o.Lock? case Exiting(_, _, _) => true case _ => false
    ensures AlikeMoves(RunThread(w, t, ch), RunThread(w', t, ch), t, x)
  {
    hide AlikeWorlds, AlikeShared, AlikeIn, AlikeOut, Passed, Worked, Free, Body, Owns, AcquireLock, ReleaseLock;
    SharedAlike(w, w', x);
    ThreadAlike(w, w', t, x);
    match w.Phase(t)
    case Out(o) => LockAlike(o, w'.Phase(t).Going(), Owns(w.sh, t, x), x);
    case Exiting(_, _, o) => OutItself(o, Owns(w.sh, t, x), x);
  }

  /** Into a lock or out of it. */
  lemma HoldingMoves(w: World, w': World, t: Tid, ch: Choice, x: Secret)
    requires AlikeWorlds(w, w', x) && t in w.threads
    requires match w.Phase(t) case Waiting(_, _, _) => true case Inside(_, _, i) => i.LeaveLock? case _ => false
    ensures AlikeMoves(RunThread(w, t, ch), RunThread(w', t, ch), t, x)
  {
    hide AlikeWorlds, AlikeShared, AlikeIn, AlikeOut, Passed, Worked, Free, Body, Owns, RegisterLock, UnregisterLock;
    SharedAlike(w, w', x);
    ThreadAlike(w, w', t, x);
    match w.Phase(t)
    case Inside(g, _, i) => LeaveAlike(g, i, w'.Phase(t).Doing(), Owns(w.sh, t, x), x);
    case _ =>
  }

  lemma LockAlike(o: OutPc, o': OutPc, owned: bool, x: Secret)
    requires AlikeOut(o, o', owned, x) && o.Lock?
    ensures match o' case Lock(g, i) => g == o.game && AlikeIn(g, o.body, i, owned, x) case _ => false
  {
    hide AlikePc;
  }

  lemma OutItself(o: OutPc, owned: bool, x: Secret)
    ensures AlikeOut(o, o, owned, x)
  {
  }

  lemma GoAlike(w: World, w': World, t: Tid, ch: Choice, ch': Choice, x: Secret)
    requires Inv(w) && Inv(w') && AlikeWorlds(w, w', x) && t in w.threads
    requires ch' == ch || (w.Phase(t) == Out(Idle) && AlikeChoices(ch, ch', Owns(w.sh, t, x)))
    requires Hidden(RunThread(w, t, ch).sh, RunThread(w', t, ch').sh, x.game)
    ensures AlikeMoves(RunThread(w, t, ch), RunThread(w', t, ch'), t, x)
  {
    hide Inv, AlikeWorlds, RunThread, Hidden, AlikeOut, AlikeIn, AlikeMoves, AlikeChoices, Owns;
    ThreadAlike(w, w', t, x);
    match w.Phase(t)
    case Out(o) =>
      if o.Lock? {
        UsingMoves(w, w', t, ch, x);
      } else {
        if ch' == ch {
          SameChoice(ch, Owns(w.sh, t, x));
        }
        FreeMoves(w, w', t, o, w'.Phase(t).Going(), ch, ch', x);
      }
    case Inside(g, l, i) =>
      if i.LeaveLock? {
        HoldingMoves(w, w', t, ch, x);
      } else {
        BodyMoves(w, w', t, g, l, i, w'.Phase(t).Doing(), ch, x);
      }
    case Waiting(_, _, _) => HoldingMoves(w, w', t, ch, x);
    case Exiting(_, _, _) => UsingMoves(w, w', t, ch, x);
  }

  lemma SameChoice(ch: Choice, owned: bool)
    ensures AlikeChoices(ch, ch, owned)
  {
  }

  /** Nothing that the rest of the program does moves a goroutine. */
  lemma EnvironmentAlike(w: World, w': World, e: Event, x: Secret)
    requires Inv(w) && Inv(w') && AlikeWorlds(w, w', x) && Enabled(w, e) && Enabled(w', e) && !e.Go?
    ensures AlikeWorlds(Step(w, e), Step(w', e), x)
  {
    hide Inv, AlikeWorlds, AlikeShared, AlikeThread, AlikeEffects, Environment, EnvironmentDoes, Do, Enabled, RunThread;
    SharedAlike(w, w', x);
    EnvironmentDo(w.sh, e);
    EnvironmentDo(w'.sh, e);
    EnvironmentSame(e, x);
    DoAlike(w.sh, w'.sh, EnvironmentDoes(e), EnvironmentDoes(e), x);
    forall t | t in Step(w, e).threads ensures AlikeThread(Step(w, e), Step(w', e), t, x) {
      ThreadsStayAlike(w, w', e, t, x);
    }
    WorldsAlike(Step(w, e), Step(w', e), x);
  }

  lemma ThreadsStayAlike(w: World, w': World, e: Event, t: Tid, x: Secret)
    requires Inv(w) && Inv(w') && AlikeWorlds(w, w', x) && Enabled(w, e) && Enabled(w', e) && !e.Go?
    requires t in Step(w, e).threads
    ensures AlikeThread(Step(w, e), Step(w', e), t, x)
  {
    hide Inv, AlikeWorlds, AlikePhases, Environment, Owns, Enabled, RunThread;
    SharedAlike(w, w', x);
    if t in w.threads {
      ThreadAlike(w, w', t, x);
      StaysPut(w, e, t);
      StaysPut(w', e, t);
      OtherAlike(w, w', e, e, t, x);
    } else {
      IdleAlike(Owns(Step(w, e).sh, t, x), x);
    }
  }

  lemma EnvironmentSame(e: Event, x: Secret)
    ensures AlikeEffects(EnvironmentDoes(e), EnvironmentDoes(e), x)
  {
  }

  lemma IdleAlike(owned: bool, x: Secret)
    ensures AlikePhases(Out(Idle), Out(Idle), owned, x)
  {
  }

  lemma WorldsAlike(w: World, w': World, x: Secret)
    requires AlikeShared(w.sh, w'.sh, x) && w'.locks == w.locks && w'.objs == w.objs
    requires w'.threads.Keys == w.threads.Keys && forall t :: t in w.threads ==> AlikeThread(w, w', t, x)
    ensures AlikeWorlds(w, w', x)
  {
    hide AlikeShared, AlikeThread;
  }

  /** Alike worlds make alike steps on alike events, as long as the round is not revealed. */
  lemma StepAlike(w: World, w': World, e: Event, e': Event, x: Secret)
    requires Inv(w) && Inv(w') && AlikeWorlds(w, w', x) && Enabled(w, e) && Enabled(w', e') && AlikeEvents(w, e, e', x)
    requires Hidden(Step(w, e).sh, Step(w', e').sh, x.game)
    ensures AlikeWorlds(Step(w, e), Step(w', e'), x)
  {
    hide Inv, AlikeWorlds, AlikeShared, RunThread, Environment, Hidden, CanPass, ListsConns, Owns, AlikeChoices,
        AlikePhases;
    match e
    case Go(t, ch) =>
      match e' {
        case Go(_, ch') =>
          GoAlike(w, w', t, ch, ch', x);
          SharedAlike(w, w', x);
          RunThreads(w, t, ch);
          RunThreads(w', t, ch');
          forall s | s in w.threads ensures AlikeThread(Step(w, e), Step(w', e'), s, x) {
            ThreadAlike(w, w', s, x);
            if s != t {
              OtherAlike(w, w', e, e', s, x);
            }
          }
          WorldsAlike(Step(w, e), Step(w', e'), x);
        case _ =>
      }
    case _ => EnvironmentAlike(w, w', e, x);
  }
}
