/** What steps do to the shared state, apart from where they lead: each step has one of a few effects. */
module ProtocolDoes {
  import opened Wrappers
  import opened Timestamps
  import opened Rules
  import opened Store
  import opened Registry
  import opened Protocol

  datatype Effect =
    | Nothing
    | Ask(ConnId, RequestId)
    | Say(ConnId, Msg)
    | Shut(ConnId, int)
    | Touch(PlayerId, Time)
    | Save(GameId, Game, Option<PlayerId>, Time, Commit, Option<PlayerId>)
    | Enter(ConnId, PlayerId)
    | Drop(ConnId)
    | Sit(ConnId, GameId, Seat)
    | Rise(ConnId)
    | Clear(GameId, set<ConnId>)
    | Miss(GameId)
    | Show(GameId)
    | Remove(PlayerId)
    | Discard(GameId)
    | Meet(ConnId)
    | Enlist(PlayerId, Player)
    | Found(GameId, PlayerId, Digest, Time)
    | Fetch(ConnId)

  /** A new guest is recorded as seated. */
  function SavedAs(sh: Shared, guest: Option<PlayerId>): Shared {
    match guest
    case Some(p) => sh.SeatTaken(p)
    case None => sh
  }

  function Do(sh: Shared, e: Effect): Shared {
    match e
    case Nothing => sh
    case Ask(c, rid) => sh.Asked(c, rid)
    case Say(c, m) => sh.Sent(c, m)
    case Shut(c, code) => sh.Closed(c, code)
    case Touch(p, now) => sh.(db := TouchPlayer(sh.db, p, now))
    case Save(g, row, actor, now, commit, guest) =>
      (match SaveGame(sh.db, g, row, actor, now)
       case Success(db) => SavedAs(sh.(db := db).Committed(g, commit, row.state), guest)
       case Failure(_) => sh)
    case Enter(c, p) => sh.(reg := Bind(sh.reg, c, p))
    case Drop(c) => sh.(reg := Forget(sh.reg, c))
    case Sit(c, g, seat) => sh.(reg := Attach(sh.reg, c, g, seat))
    case Rise(c) => sh.(reg := Detach(sh.reg, c))
    case Clear(g, cs) => sh.(reg := DetachSet(sh.reg, g, cs))
    case Miss(g) => sh.(stale := sh.stale + {g})
    case Show(g) => sh.(stale := sh.stale - {g})
    case Remove(p) => sh.(db := DeletePlayer(sh.db, p))
    case Discard(g) => sh.(db := DeleteGame(sh.db, g))
    case Meet(c) => sh.(reg := AddConn(sh.reg, c), chan := sh.chan[c := Chan(None, [], 0, [])])
    case Enlist(p, row) => sh.(db := sh.db.(players := sh.db.players[p := row]), used := sh.used + {p})
    case Found(g, host, digest, now) =>
      (match CreateGame(sh.db, g, host, digest, now)
       case Success(db) => sh.(db := db, saves := sh.saves[g := History([], [NewState()])]).SeatTaken(host)
       case Failure(_) => sh)
    case Fetch(c) =>
      if c in sh.chan then sh.(chan := sh.chan[c := sh.chan[c].(taken := sh.chan[c].taken + 1)]) else sh
  }

  /** Connection c can be sent a message. */
  predicate HasRoom(sh: Shared, c: ConnId) {
    c in sh.chan && sh.chan[c].closing.None? && |sh.chan[c].log| < sh.chan[c].taken + SEND_BUFFER
  }

  /** Only saves and new games change the saves. */
  lemma DoSaves(sh: Shared, e: Effect)
    requires !e.Save? && !e.Found?
    ensures Do(sh, e).saves == sh.saves
  {
    hide Bind, Forget, Attach, Detach, DetachSet, AddConn, Send, Close, TouchPlayer, DeletePlayer, DeleteGame;
  }

  // ----- The effect of each step -----

  function FreeDoes(sh: Shared, t: Tid, sv: Serving, o: OutPc, ch: Choice): Effect {
    var c := t.Mine();
    match o
    case Idle =>
      if t.Sweeper? then Nothing else (match ch.frame case MalformedFrame(rid) => Ask(c, rid) case _ => Nothing)
    case Dispatch(_) => if sh.Closing(c) then Nothing else Ask(c, sv.rid)
    case AuthTouch(p) => if ch.fail then Nothing else Touch(p, ch.now)
    case AuthRegister(p) => Enter(c, p)
    case AuthReply(_) => Say(c, Direct(sv.rid, Ok))
    case AuthNotify(prior) => Say(prior, Replaced)
    case AuthClose(prior) => Shut(prior, CLOSE_REPLACED)
    case SendErr(code) => Say(c, Direct(sv.rid, Error(code)))
    case DiscClose => Shut(c, CLOSE_NORMAL)
    case DiscForget => Drop(c)
    case ExpClose(_, d, _) => Shut(d, CLOSE_PLAYER_EXPIRED)
    case ExpDelete(p, _) => if ch.fail then Nothing else Remove(p)
    case _ => Nothing
  }

  lemma FreeDo(sh: Shared, t: Tid, sv: Serving, o: OutPc, ch: Choice)
    ensures Free(sh, t, sv, o, ch).sh == Do(sh, FreeDoes(sh, t, sv, o, ch))
  {
    hide Gated, Load, Resumed, Before, TouchPlayer, DeletePlayer, SaveGame, CreateGame, Bind, Forget, Send, Close;
  }

  /** No snapshot is sent outside locks. */
  lemma FreeSaysNoSnap(sh: Shared, t: Tid, sv: Serving, o: OutPc, ch: Choice)
    ensures match FreeDoes(sh, t, sv, o, ch) case Say(_, m) => SnapOf(m).None? case _ => true
  {
  }

  function BodyDoes(sh: Shared, t: Tid, g: GameId, i: InPc, ch: Choice): Effect {
    var c := t.Mine();
    match i
    case ConnSave(p, copy, seat, joined) =>
      if ch.fail then Nothing
      else
        Save(g, copy.(lastActive := ch.now), Some(p), ch.now, if joined then Changed(Join) else Reconnected,
            if joined then Some(p) else None)
    case ConnAttach(seat, _, _, _) => Sit(c, g, seat)
    case ConnView(_, _, _, _, _) => if ch.fail then Miss(g) else Nothing
    case ActSave(a, seat, p, copy) =>
      if ch.fail then Nothing
      else Save(g, copy.(lastActive := ch.now), Some(p), ch.now, Changed(AttemptOf(a, seat)), None)
    case ActDetach(_, _, _) => Rise(c)
    case CastView(_, _) => if ch.fail then Miss(g) else Nothing
    case CastList(_, _) => Show(g)
    case CloseList(_, _, _, _, _, _) => Clear(g, sh.reg.Attached(g))
    case Sends(todo, msgs, seats, next, _) =>
      if todo == [] || next >= |msgs| then Nothing else Say(todo[0], Rendered(msgs[next], seats, todo[0]))
    case DetachCheck(d, _, _) => if sh.Place(d).In(g) then Rise(d) else Nothing
    case ExpSave(_, _, _, copy, _) => if ch.fail then Nothing else Save(g, copy, None, ch.now, Changed(Leave), None)
    case ExpDetach(p, _, _, _, _, _) => Clear(g, set d | d in sh.reg.Attached(g) && sh.PlayerOn(d) == Some(p))
    case GameDetach => Clear(g, sh.reg.Attached(g))
    case GameClose(todo) => if todo == [] then Nothing else Shut(todo[0], CLOSE_GAME_EXPIRED)
    case GameDelete => if ch.fail then Nothing else Discard(g)
    case _ => Nothing
  }

  lemma BodyDo(sh: Shared, t: Tid, g: GameId, sv: Serving, i: InPc, ch: Choice)
    ensures Body(sh, t, g, sv, i, ch).sh == Do(sh, BodyDoes(sh, t, g, i, ch))
  {
    hide Load, Seating, Apply, After, AfterOk, AttemptOf, Following, Final, Rendered, Shared.View, Shared.SeatsIn,
        Resumed,
        Before, SaveGame, CreateGame, DeleteGame, Attach, Detach, DetachSet, Send, Close;
  }

  function EnvironmentDoes(e: Event): Effect {
    match e
    case Go(_, _) => Nothing
    case NewConn(c) => Meet(c)
    case NewPlayer(p, row) => Enlist(p, row)
    case NewGame(g, host, digest, now) => Found(g, host, digest, now)
    case ForceClose(c, code) => Shut(c, code)
    case Take(c) => Fetch(c)
  }

  /** The effect of an event. */
  function Does(w: World, e: Event): Effect {
    match e
    case Go(t, ch) =>
      (match w.Phase(t)
       case Out(o) => FreeDoes(w.sh, t, w.Served(t), o, ch)
       case Inside(g, _, i) => BodyDoes(w.sh, t, g, i, ch)
       case _ => Nothing)
    case _ => EnvironmentDoes(e)
  }

  lemma EnvironmentDo(sh: Shared, e: Event)
    ensures Environment(sh, e) == Do(sh, EnvironmentDoes(e))
  {
    hide CreateGame, AddConn, Close;
  }

  lemma DoNothing(sh: Shared)
    ensures Do(sh, Nothing) == sh
  {
  }

  lemma StepDo(w: World, e: Event)
    ensures Step(w, e).sh == Do(w.sh, Does(w, e))
  {
    hide Free, Body, Do, Environment, EnvironmentDoes;
    EnvironmentDo(w.sh, e);
    assert Do(w.sh, Nothing) == w.sh by {
      DoNothing(w.sh);
    }
    match e
    case Go(t, ch) =>
      match w.Phase(t) {
        case Out(o) => FreeDo(w.sh, t, w.Served(t), o, ch);
        case Inside(g, _, i) => BodyDo(w.sh, t, g, w.Served(t), i, ch);
        case _ =>
      }
    case _ =>
  }

  /** A goroutine's step moves that goroutine only. */
  lemma RunThreads(w: World, t: Tid, ch: Choice)
    ensures RunThread(w, t, ch).threads == w.threads[t := RunThread(w, t, ch).On(t)]
  {
    hide Free, Body;
  }
}
