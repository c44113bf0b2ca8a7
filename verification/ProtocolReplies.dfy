/**
 * Every request gets exactly one direct reply, in the order of the requests: `ok` if it has been saved, an error
 * other than `internal` only if nothing has been written for it.
 */
module ProtocolReplies {
  import opened Wrappers
  import opened Timestamps
  import opened Rules
  import opened Store
  import opened Registry
  import opened Protocol
  import opened ProtocolDoes
  import opened ProtocolLocks
  import opened ProtocolInvariant
  import opened ProtocolRely
  import opened ProtocolBody
  import opened ProtocolNext
  import opened ProtocolSafety

  /** The requests answered in a log, in order. */
  function Answered(log: seq<Msg>): seq<RequestId> {
    if log == [] then []
    else
      var last := log[|log| - 1];
      Answered(log[..|log| - 1]) + (if last.Direct? then [last.rid] else [])
  }

  lemma AnsweredPush(log: seq<Msg>, m: Msg)
    ensures Answered(log + [m]) == Answered(log) + (match m case Direct(rid, _) => [rid] case _ => [])
  {
    assert (log + [m])[..|log|] == log;
  }

  // ----- Control states that owe an answer -----

  predicate OwesStart(i: InPc) {
    match i
    case ConnReload(_, _) => true
    case ActCheck(_) => true
    case DetachCheck(_, _, k) => k.GoConnect?
    case _ => false
  }

  predicate OwesOut(o: OutPc) {
    match o
    case Lock(_, i) => OwesStart(i)
    case DetachRead(_, _, k) => k.GoConnect?
    case _ =>
      || o.Gate? || o.AuthCheck? || o.AuthLoad? || o.AuthTouch? || o.AuthRegister? || o.AuthReply?
      || o.ConnLoad? || o.ConnPlayer? || o.ConnCurrent? || o.WithGame? || o.SendErr?
  }

  /** A loop that begins with the direct reply. */
  predicate Replying(msgs: seq<Msg>) {
    msgs != [] && msgs[0].Direct?
  }

  predicate OwesThen(k: Then) {
    match k
    case ThenLeave(o) => OwesOut(o)
    case ThenClose(_, _, _, _, o) => OwesOut(o)
    case _ => false
  }

  predicate OwesIn(i: InPc) {
    match i
    case Sends(_, msgs, _, _, k) => Replying(msgs) || OwesThen(k)
    case CloseView(_, _, _, _, o) => OwesOut(o)
    case CloseList(_, _, _, _, _, o) => OwesOut(o)
    case LeaveLock(o) => OwesOut(o)
    case _ =>
      OwesStart(i) || i.ConnSave? || i.ConnAttach? || i.ConnView? || i.ActLoad? || i.ActSave? || i.ActDetach?
  }

  predicate Owes(phase: Phase) {
    match phase
    case Out(o) => OwesOut(o)
    case Waiting(_, _, i) => OwesIn(i)
    case Inside(_, _, i) => OwesIn(i)
    case Exiting(_, _, o) => OwesOut(o)
  }

  // ----- Answers are accounted for -----

  function Owed(owes: bool, rid: RequestId): seq<RequestId> {
    if owes then [rid] else []
  }

  /** The answers sent, and the one still owed, are the requests asked; once closing, some may stay unanswered. */
  ghost predicate Accounted(ch: Chan, owes: bool, rid: RequestId) {
    match ch.closing
    case None => Answered(ch.log) + Owed(owes, rid) == ch.asked
    case Some(_) => Answered(ch.log) <= ch.asked
  }

  /** What an effect makes of the answer that connection d is owed. */
  predicate Balance(e: Effect, d: ConnId, owes: bool, rid: RequestId, owes': bool, rid': RequestId) {
    var same := owes' == owes && (owes ==> rid' == rid);
    match e
    case Ask(c, r) => if c == d then !owes && owes' && rid' == r else same
    case Say(c, Direct(r, _)) => if c == d then owes && r == rid && !owes' else same
    case Meet(c) => c != d && same
    case _ => same
  }

  lemma DoAccounted(sh: Shared, e: Effect, d: ConnId, owes: bool, rid: RequestId, owes': bool, rid': RequestId)
    requires d in sh.chan && Accounted(sh.chan[d], owes, rid) && Balance(e, d, owes, rid, owes', rid')
    ensures d in Do(sh, e).chan && Accounted(Do(sh, e).chan[d], owes', rid')
  {
    hide Bind, Forget, Attach, Detach, DetachSet, AddConn, TouchPlayer, DeletePlayer, DeleteGame, SaveGame, CreateGame,
        Answered;
    match e
    case Say(c, m) => AnsweredPush(sh.chan[d].log, m);
    case _ =>
  }

  /** Only a connection's own reader asks for it or answers it. */
  predicate Speaks(t: Tid, e: Effect) {
    match e
    case Ask(c, _) => t == Reader(c)
    case Say(c, m) => m.Direct? ==> t == Reader(c)
    case Meet(_) => false
    case _ => true
  }

  lemma SpeaksOwn(t: Tid, e: Effect, d: ConnId, owes: bool, rid: RequestId)
    requires Speaks(t, e) && t != Reader(d)
    ensures Balance(e, d, owes, rid, owes, rid)
  {
  }

  lemma FreeSpeaks(sh: Shared, t: Tid, sv: Serving, o: OutPc, ch: Choice)
    requires OutOk(sh, t, o)
    ensures Speaks(t, FreeDoes(sh, t, sv, o, ch))
  {
    hide StartOk, DetachOk, Covers;
    assert t.Reader? ==> t == Reader(t.Mine());
  }

  /** Control states outside locks in which something is asked or said. */
  predicate Speaking(o: OutPc) {
    o.Idle? || o.Dispatch? || o.AuthReply? || o.AuthNotify? || o.SendErr?
  }

  lemma SpeakingBalance(sh: Shared, t: Tid, sv: Serving, o: OutPc, ch: Choice)
    requires OutOk(sh, t, o) && Speaking(o) && t.Reader?
    ensures
      var to := Free(sh, t, sv, o, ch);
      Balance(FreeDoes(sh, t, sv, o, ch), t.Mine(), OwesOut(o), sv.rid, OwesOut(to.pc), to.serving.rid)
  {
    hide Shared.Sent, Shared.Asked, StartOk, DetachOk, Covers;
  }

  lemma SilentBalance(sh: Shared, t: Tid, sv: Serving, o: OutPc, ch: Choice)
    requires OutOk(sh, t, o) && !o.Lock? && !Speaking(o) && t.Reader?
    ensures
      var to := Free(sh, t, sv, o, ch);
      OwesOut(to.pc) == OwesOut(o) && to.serving.rid == sv.rid && !FreeDoes(sh, t, sv, o, ch).Say?
      && !FreeDoes(sh, t, sv, o, ch).Ask? && !FreeDoes(sh, t, sv, o, ch).Meet?
  {
    hide Load, Before, Gated, Resumed, Bind, Forget, TouchPlayer, DeletePlayer, Covers, Shared.Closed, StartOk,
        Shared.Place,
        Shared.Closing, Shared.Seatings;
    if o.Gate? {
      GatedOwes(sh, t.Mine(), o.action);
    } else if o.DetachRead? {
      ResumedOwes(o.resume);
    }
  }

  lemma FreeBalance(sh: Shared, t: Tid, sv: Serving, o: OutPc, ch: Choice)
    requires OutOk(sh, t, o) && !o.Lock? && t.Reader?
    ensures
      var to := Free(sh, t, sv, o, ch);
      Balance(FreeDoes(sh, t, sv, o, ch), t.Mine(), OwesOut(o), sv.rid, OwesOut(to.pc), to.serving.rid)
  {
    hide OutOk, Free, FreeDoes, OwesOut;
    if Speaking(o) {
      SpeakingBalance(sh, t, sv, o, ch);
    } else {
      SilentBalance(sh, t, sv, o, ch);
    }
  }

  lemma GatedOwes(sh: Shared, c: ConnId, a: Action)
    ensures OwesOut(Gated(sh, c, a)) && CleanOut(Gated(sh, c, a)) && !WrittenOut(Gated(sh, c, a))
  {
  }

  lemma ResumedOwes(k: Resume)
    ensures OwesOut(Resumed(k)) == k.GoConnect? == CleanOut(Resumed(k)) && !WrittenOut(Resumed(k))
  {
  }

  // ----- What a request has written -----

  /** Control states that have not written anything yet. */
  predicate CleanOut(o: OutPc) {
    match o
    case SendErr(code) => code != Internal
    case Lock(_, i) => OwesStart(i)
    case DetachRead(_, _, k) => k.GoConnect?
    case _ =>
      || o.Dispatch? || o.Gate? || o.AuthCheck? || o.AuthLoad? || o.AuthTouch?
      || o.ConnLoad? || o.ConnPlayer? || o.ConnCurrent? || o.WithGame?
  }

  predicate CleanThen(k: Then) {
    match k
    case ThenLeave(o) => CleanOut(o)
    case ThenClose(_, _, _, _, o) => CleanOut(o)
    case _ => false
  }

  predicate CleanIn(i: InPc) {
    match Onward(i)
    case Some(o) => CleanOut(o)
    case None => OwesStart(i) || i.ConnSave? || i.ActLoad? || i.ActSave?
  }

  predicate Clean(phase: Phase) {
    match phase
    case Out(o) => CleanOut(o)
    case Waiting(_, _, i) => CleanIn(i)
    case Inside(_, _, i) => CleanIn(i)
    case Exiting(_, _, o) => CleanOut(o)
  }

  /** Control states about to answer with `ok`. */
  predicate WrittenOut(o: OutPc) {
    o.AuthRegister? || o.AuthReply?
  }

  predicate WrittenThen(k: Then) {
    match k
    case ThenLeave(o) => WrittenOut(o)
    case ThenClose(_, _, _, _, o) => WrittenOut(o)
    case _ => false
  }

  predicate WrittenIn(i: InPc) {
    match i
    case Sends(_, msgs, _, _, k) => Replying(msgs) || WrittenThen(k)
    case CloseView(_, _, _, _, o) => WrittenOut(o)
    case CloseList(_, _, _, _, _, o) => WrittenOut(o)
    case LeaveLock(o) => WrittenOut(o)
    case _ => i.ConnAttach? || i.ConnView? || i.ActDetach?
  }

  predicate Written(phase: Phase) {
    match phase
    case Out(o) => WrittenOut(o)
    case Waiting(_, _, i) => WrittenIn(i)
    case Inside(_, _, i) => WrittenIn(i)
    case Exiting(_, _, o) => WrittenOut(o)
  }

  /** A loop of sends holds at most one direct reply, to the request being served, and nothing after it owes one. */
  ghost predicate ShapeIn(t: Tid, sv: Serving, i: InPc) {
    match i
    case Sends(todo, msgs, _, next, k) =>
      && next < |msgs|
      && if Replying(msgs)
         then todo == [t.Mine()] && t.Reader? && !OwesThen(k) && exists reply :: msgs == [Direct(sv.rid, reply)]
         else forall n :: 0 <= n < |msgs| ==> !msgs[n].Direct?
    case _ => true
  }

  ghost predicate ThreadOk(t: Tid, th: Thread) {
    && (match th.phase case Inside(_, _, i) => ShapeIn(t, th.serving, i) case _ => true)
    && (Clean(th.phase) ==> !th.serving.wrote)
    && (Written(th.phase) ==> th.serving.wrote)
  }

  /** Whose control states under a lock are, and what a message to the others may be. */
  predicate Whose(t: Tid, i: InPc) {
    match i
    case Tell(e, _, _) => !e.Direct? && t.Reader?
    case _ =>
      if i.ExpReload? || i.ExpSave? || i.ExpDetach? || i.GameLoad? || i.GameDetach? || i.GameDelete? || i.GameClose?
      then t == Sweeper
      else i.CloseView? || i.CloseList? || i.Sends? || i.DetachCheck? || i.LeaveLock? || t.Reader?
  }

  lemma WhoseBody(sh: Shared, t: Tid, g: GameId, i: InPc)
    requires Local(sh, t, g, i)
    ensures Whose(t, i)
  {
    hide DetachOk, Covers, SeatCopied, Live, RowIs, MsgsOk, ThenOk, Apply, AttemptOf, JoinGame, CloseGame;
  }

  /** A goroutine that has written nothing notes that, and so does one that writes. */
  ghost predicate Noted(t: Tid, sv: Serving, clean: bool, written: bool, db: Db, sv': Serving, clean': bool,
                        written': bool, db': Db) {
    && (clean' ==> !sv'.wrote || (sv'.wrote == sv.wrote && clean))
    && (written' ==> sv'.wrote || (sv'.wrote == sv.wrote && written))
    && (t.Reader? ==> db' == db || sv'.wrote)
  }

  lemma FreeWrites(sh: Shared, t: Tid, sv: Serving, o: OutPc, ch: Choice)
    requires OutOk(sh, t, o) && !o.Lock? && t.Reader?
    ensures var to := Free(sh, t, sv, o, ch); to.sh.db == sh.db || to.serving.wrote
  {
    hide Load, Gated, Resumed, Bind, Forget, TouchPlayer, DeletePlayer, Covers, Send, Close, StartOk, Justifies;
  }

  lemma FreeClean(sh: Shared, t: Tid, sv: Serving, o: OutPc, ch: Choice)
    requires !o.Lock?
    ensures
      var to := Free(sh, t, sv, o, ch);
      CleanOut(to.pc) ==> !to.serving.wrote || (to.serving.wrote == sv.wrote && CleanOut(o))
  {
    hide Load, Before, Gated, Resumed, Bind, Forget, TouchPlayer, DeletePlayer, Shared.Sent, Shared.Closed,
        Shared.Asked,
        Shared.Place, Shared.PlayerOn, Shared.Closing, Shared.Seatings;
    if o.DetachRead? {
      ResumedOwes(o.resume);
    }
  }

  lemma FreeWritten(sh: Shared, t: Tid, sv: Serving, o: OutPc, ch: Choice)
    requires !o.Lock?
    ensures
      var to := Free(sh, t, sv, o, ch);
      && (WrittenOut(to.pc) ==> to.serving.wrote || (to.serving.wrote == sv.wrote && WrittenOut(o)))
      && (!o.Idle? && sv.wrote ==> to.serving.wrote)
  {
    hide Load, Before, Gated, Resumed, Bind, Forget, TouchPlayer, DeletePlayer, Shared.Sent, Shared.Closed,
        Shared.Asked,
        Shared.Place, Shared.PlayerOn, Shared.Closing, Shared.Seatings;
    if o.Gate? {
      GatedOwes(sh, t.Mine(), o.action);
    } else if o.DetachRead? {
      ResumedOwes(o.resume);
    }
  }

  lemma FreeNoted(sh: Shared, t: Tid, sv: Serving, o: OutPc, ch: Choice)
    requires OutOk(sh, t, o) && !o.Lock?
    ensures
      var to := Free(sh, t, sv, o, ch);
      && Noted(t, sv, CleanOut(o), WrittenOut(o), sh.db, to.serving, CleanOut(to.pc), WrittenOut(to.pc), to.sh.db)
      && (!o.Idle? && sv.wrote ==> to.serving.wrote)
  {
    hide OutOk, Free, CleanOut, WrittenOut;
    FreeClean(sh, t, sv, o, ch);
    FreeWritten(sh, t, sv, o, ch);
    if t.Reader? {
      FreeWrites(sh, t, sv, o, ch);
    }
  }

  // ----- Steps under a game lock -----

  /** A step owes what it owed, up to the answer it sends, and notes what it writes. */
  ghost predicate Goes(sh: Shared, t: Tid, g: GameId, sv: Serving, i: InPc, e: Effect, to: To<InPc>) {
    && to.serving.rid == sv.rid && ShapeIn(t, to.serving, to.pc) && Speaks(t, e)
    && (t.Reader? ==> Balance(e, t.Mine(), OwesIn(i), sv.rid, OwesIn(to.pc), sv.rid))
    && Noted(t, sv, CleanIn(i), WrittenIn(i), sh.db, to.serving, CleanIn(to.pc), WrittenIn(to.pc), to.sh.db)
    && (sv.wrote ==> to.serving.wrote)
  }

  lemma ConnectingGoes(sh: Shared, t: Tid, g: GameId, sv: Serving, i: InPc, ch: Choice)
    requires t.Reader? && (i.ConnSave? || i.ConnAttach? || i.ConnView? || i.ConnList?)
    ensures Goes(sh, t, g, sv, i, BodyDoes(sh, t, g, i, ch), Body(sh, t, g, sv, i, ch))
  {
    hide SaveGame, Attach, Shared.View;
  }

  lemma LoadingGoes(sh: Shared, t: Tid, g: GameId, sv: Serving, i: InPc, ch: Choice)
    requires t.Reader? && (i.ConnReload? || i.ActCheck? || i.ActLoad?)
    ensures Goes(sh, t, g, sv, i, BodyDoes(sh, t, g, i, ch), Body(sh, t, g, sv, i, ch))
  {
    hide Load, JoinGame, Apply, AttemptOf;
  }

  lemma ActingGoes(sh: Shared, t: Tid, g: GameId, sv: Serving, i: InPc, ch: Choice)
    requires t.Reader? && (i.ActSave? || i.ActDetach?)
    ensures Goes(sh, t, g, sv, i, BodyDoes(sh, t, g, i, ch), Body(sh, t, g, sv, i, ch))
  {
    hide AttemptOf, SaveGame, Detach;
  }

  lemma TellingGoes(sh: Shared, t: Tid, g: GameId, sv: Serving, i: InPc, ch: Choice)
    requires Whose(t, i)
    requires i.Tell? || i.CastView? || i.CastList? || i.CloseView? || i.CloseList?
    ensures Goes(sh, t, g, sv, i, BodyDoes(sh, t, g, i, ch), Body(sh, t, g, sv, i, ch))
  {
    hide DetachSet, Shared.View, Shared.SeatsIn;
  }

  lemma DetachingGoes(sh: Shared, t: Tid, g: GameId, sv: Serving, i: InPc, ch: Choice)
    requires i.DetachCheck?
    ensures Goes(sh, t, g, sv, i, BodyDoes(sh, t, g, i, ch), Body(sh, t, g, sv, i, ch))
  {
    hide Detach;
  }

  lemma ExpiringGoes(sh: Shared, t: Tid, g: GameId, sv: Serving, i: InPc, ch: Choice)
    requires t == Sweeper
    requires i.ExpReload? || i.ExpSave? || i.ExpDetach? || i.GameLoad? || i.GameDetach? || i.GameClose? || i.GameDelete?
    ensures Goes(sh, t, g, sv, i, BodyDoes(sh, t, g, i, ch), Body(sh, t, g, sv, i, ch))
  {
    hide After, DetachSet, SaveGame, DeleteGame, Before, Shared.Closed;
  }

  lemma FollowingGoes(k: Then)
    ensures OwesIn(Following(k)) == OwesThen(k) && !Following(k).Sends?
    ensures (CleanIn(Following(k)) ==> CleanThen(k)) && (WrittenIn(Following(k)) ==> WrittenThen(k))
  {
    hide OwesOut, CleanOut;
  }

  lemma SendsGoes(sh: Shared, t: Tid, g: GameId, sv: Serving, todo: seq<ConnId>, msgs: seq<Msg>,
                  seats: map<ConnId, Seat>, next: nat, k: Then, ch: Choice)
    requires ShapeIn(t, sv, Sends(todo, msgs, seats, next, k))
    ensures
      var i := Sends(todo, msgs, seats, next, k);
      Goes(sh, t, g, sv, i, BodyDoes(sh, t, g, i, ch), Body(sh, t, g, sv, i, ch))
  {
    hide OwesThen, CleanOut, Following, Send;
    FollowingGoes(k);
  }

  /** Every step under a lock. */
  lemma BodyGoes(sh: Shared, t: Tid, g: GameId, sv: Serving, i: InPc, ch: Choice)
    requires Local(sh, t, g, i) && ShapeIn(t, sv, i) && !i.LeaveLock?
    ensures Goes(sh, t, g, sv, i, BodyDoes(sh, t, g, i, ch), Body(sh, t, g, sv, i, ch))
  {
    hide Local, Body, BodyDoes, ShapeIn, Goes;
    WhoseBody(sh, t, g, i);
    if i.ConnReload? || i.ActCheck? || i.ActLoad? {
      LoadingGoes(sh, t, g, sv, i, ch);
    } else if i.ConnSave? || i.ConnAttach? || i.ConnView? || i.ConnList? {
      ConnectingGoes(sh, t, g, sv, i, ch);
    } else if i.ActSave? || i.ActDetach? {
      ActingGoes(sh, t, g, sv, i, ch);
    } else if i.Tell? || i.CastView? || i.CastList? || i.CloseView? || i.CloseList? {
      TellingGoes(sh, t, g, sv, i, ch);
    } else if i.DetachCheck? {
      DetachingGoes(sh, t, g, sv, i, ch);
    } else {
      match i
      case Sends(todo, msgs, seats, next, k) => SendsGoes(sh, t, g, sv, todo, msgs, seats, next, k, ch);
      case _ => ExpiringGoes(sh, t, g, sv, i, ch);
    }
  }

  // ----- Every step -----

  ghost predicate Replies(w: World) {
    && (forall c :: c in w.sh.chan ==>
          && Reader(c) in w.threads
          && Accounted(w.sh.chan[c], Owes(w.Phase(Reader(c))), w.Served(Reader(c)).rid))
    && (forall t :: t in w.threads ==> ThreadOk(t, w.On(t)))
  }

  /** What a step of goroutine t means to the request it serves. */
  ghost predicate Serves(w: World, w': World, t: Tid, e: Effect) {
    && ThreadOk(t, w'.On(t)) && Speaks(t, e)
    && (t.Reader? ==>
          Balance(e, t.Mine(), Owes(w.Phase(t)), w.Served(t).rid, Owes(w'.Phase(t)), w'.Served(t).rid))
    && (w.Phase(t) != Out(Idle) && w.Served(t).wrote ==> w'.Served(t).wrote)
    && (t.Reader? ==> w'.sh.db == w.sh.db || w'.Served(t).wrote)
  }

  lemma FreeServes(w: World, t: Tid, o: OutPc, ch: Choice)
    requires ThreadOk(t, w.On(t)) && w.Phase(t) == Out(o) && OutOk(w.sh, t, o) && !o.Lock?
    ensures Serves(w, RunThread(w, t, ch), t, Does(w, Go(t, ch)))
  {
    hide Free, FreeDoes, OutOk, OwesOut, CleanOut, WrittenOut, Balance, Speaks;
    FreeSpeaks(w.sh, t, w.Served(t), o, ch);
    FreeNoted(w.sh, t, w.Served(t), o, ch);
    if t.Reader? {
      FreeBalance(w.sh, t, w.Served(t), o, ch);
    }
  }

  lemma BodyServes(w: World, t: Tid, g: GameId, l: LockRef, i: InPc, ch: Choice)
    requires ThreadOk(t, w.On(t)) && w.Phase(t) == Inside(g, l, i) && Local(w.sh, t, g, i) && !i.LeaveLock?
    ensures Serves(w, RunThread(w, t, ch), t, Does(w, Go(t, ch)))
  {
    hide Body, BodyDoes, Local, OwesIn, CleanIn, WrittenIn, ShapeIn, Balance, Speaks;
    BodyGoes(w.sh, t, g, w.Served(t), i, ch);
  }

  /** To and from a lock, a goroutine owes what it owed. */
  lemma CrossingServes(w: World, t: Tid, ch: Choice)
    requires Justified(w) && t in w.threads && ThreadOk(t, w.On(t))
    requires match w.Phase(t) case Out(o) => o.Lock? case Inside(_, _, i) => i.LeaveLock? case _ => true
    ensures Serves(w, RunThread(w, t, ch), t, Does(w, Go(t, ch)))
  {
    hide Free, Body, Justified, OutOk, InOk, StartOk, OwesOut, CleanOut, WrittenOut, OwesIn, CleanIn, WrittenIn,
        ShapeIn;
    PhaseOf(w, t);
    match w.Phase(t)
    case Out(o) =>
      StartsPlain(w.sh, t, o.game, o.body);
      LockOwes(o.game, o.body);
      StartShape(t, w.Served(t), o.body);
    case Waiting(g, _, i) =>
      StartsPlain(w.sh, t, g, i);
      StartShape(t, w.Served(t), i);
    case Inside(_, _, i) => LeaveOwes(i.out);
    case _ =>
  }

  lemma LockOwes(g: GameId, i: InPc)
    requires Starting(i)
    ensures OwesIn(i) == OwesOut(Lock(g, i)) && CleanIn(i) == CleanOut(Lock(g, i))
    ensures WrittenIn(i) == WrittenOut(Lock(g, i))
  {
  }

  lemma LeaveOwes(o: OutPc)
    ensures OwesIn(LeaveLock(o)) == OwesOut(o) && CleanIn(LeaveLock(o)) == CleanOut(o)
    ensures WrittenIn(LeaveLock(o)) == WrittenOut(o)
  {
    hide OwesOut, CleanOut;
  }

  lemma StartShape(t: Tid, sv: Serving, i: InPc)
    requires Starting(i)
    ensures ShapeIn(t, sv, i)
  {
  }

  lemma GoServes(w: World, t: Tid, ch: Choice)
    requires Justified(w) && CanRun(w, t, ch) && ThreadOk(t, w.On(t))
    ensures Serves(w, RunThread(w, t, ch), t, Does(w, Go(t, ch)))
  {
    hide Justified, RunThread, Does, Serves, ThreadOk, OutOk, InOk, StartOk, Local, ListsGames, ListsConns;
    PhaseOf(w, t);
    match w.Phase(t)
    case Out(o) =>
      if o.Lock? {
        CrossingServes(w, t, ch);
      } else {
        FreeServes(w, t, o, ch);
      }
    case Inside(g, l, i) =>
      if i.LeaveLock? {
        CrossingServes(w, t, ch);
      } else {
        LocalOf(w.sh, t, g, i);
        BodyServes(w, t, g, l, i, ch);
      }
    case _ => CrossingServes(w, t, ch);
  }

  lemma ThreadOkOf(w: World, t: Tid)
    requires Replies(w) && t in w.threads
    ensures ThreadOk(t, w.On(t))
  {
    hide ThreadOk, Accounted;
  }

  lemma GoReplies(w: World, t: Tid, ch: Choice)
    requires Replies(w) && Justified(w) && CanRun(w, t, ch)
    ensures Replies(RunThread(w, t, ch)) && Serves(w, RunThread(w, t, ch), t, Does(w, Go(t, ch)))
  {
    hide Justified, RunThread, Does, Do, ThreadOk, Accounted, Balance, Owes, CanPass, ListsConns;
    var w', e := RunThread(w, t, ch), Does(w, Go(t, ch));
    ThreadOkOf(w, t);
    GoServes(w, t, ch);
    RunThreads(w, t, ch);
    StepDo(w, Go(t, ch));
    DoChans(w.sh, e);
    forall c | c in w'.sh.chan
      ensures Reader(c) in w'.threads && Accounted(w'.sh.chan[c], Owes(w'.Phase(Reader(c))), w'.Served(Reader(c)).rid)
    {
      var owes, rid := Owes(w.Phase(Reader(c))), w.Served(Reader(c)).rid;
      if t == Reader(c) {
        assert t.Mine() == c;
      } else {
        SpeaksOwn(t, e, c, owes, rid);
      }
      DoAccounted(w.sh, e, c, owes, rid, Owes(w'.Phase(Reader(c))), w'.Served(Reader(c)).rid);
    }
  }

  lemma DoChans(sh: Shared, e: Effect)
    ensures Do(sh, e).chan.Keys == sh.chan.Keys + match e case Meet(c) => {c} case _ => {}
  {
    hide Bind, Forget, Attach, Detach, DetachSet, AddConn, TouchPlayer, DeletePlayer, DeleteGame, SaveGame, CreateGame,
        Send, Close;
  }

  lemma EnvironmentReplies(w: World, e: Event)
    requires Replies(w) && Inv(w) && Enabled(w, e) && !e.Go?
    ensures Replies(Step(w, e))
  {
    hide Inv, Rely, ThreadOk, Accounted, Balance, Do, Owes, CanRun, RunThread, CreateGame, AddConn;
    EnvironmentOf(w, e);
    EnvironmentDo(w.sh, e);
    DoChans(w.sh, EnvironmentDoes(e));
    var w' := Step(w, e);
    forall c | c in w.sh.chan
      ensures c in w'.sh.chan && Accounted(w'.sh.chan[c], Owes(w.Phase(Reader(c))), w.Served(Reader(c)).rid)
    {
      var owes, rid := Owes(w.Phase(Reader(c))), w.Served(Reader(c)).rid;
      EnvironmentSilent(w, e, c, owes, rid);
      DoAccounted(w.sh, EnvironmentDoes(e), c, owes, rid, owes, rid);
    }
    match e
    case NewConn(c) => NewReplies(Reader(c), w'.Served(Reader(c)).rid);
    case _ =>
  }

  lemma EnvironmentSilent(w: World, e: Event, c: ConnId, owes: bool, rid: RequestId)
    requires Enabled(w, e) && !e.Go? && c in w.sh.chan
    ensures Balance(EnvironmentDoes(e), c, owes, rid, owes, rid)
  {
    hide CanRun;
  }

  lemma NewReplies(t: Tid, rid: RequestId)
    ensures Accounted(Chan(None, [], 0, []), Owes(Out(Idle)), rid)
    ensures ThreadOk(t, Thread(Out(Idle), Serving(0, false)))
  {
  }

  lemma StepReplies(w: World, e: Event)
    requires Replies(w) && Inv(w) && Enabled(w, e)
    ensures Replies(Step(w, e))
  {
    hide LockInv, Global, Justified, Replies, RunThread, CanRun, Environment, Serves;
    match e
    case Go(t, ch) => GoReplies(w, t, ch);
    case _ => EnvironmentReplies(w, e);
  }

  lemma InitReplies(w: World)
    requires Init(w)
    ensures Replies(w)
  {
  }

  lemma AlwaysReplies(w: World)
    requires Reached(w)
    ensures Replies(w)
  {
    hide *;
    forall v | Init(v) ensures Replies(v) {
      InitReplies(v);
    }
    forall u, e | Inv(u) && Replies(u) && Enabled(u, e) ensures Replies(Step(u, e)) {
      StepReplies(u, e);
    }
    AlwaysKept(w, Replies);
  }

  /**
   * At every instant, for a connection that is not closing, the direct replies sent to it answer exactly its
   * requests, once each and in order, up to the one its reader is still working on. Once it is closing, nothing
   * but requests is answered, still in order.
   */
  lemma EveryRequestIsAnswered(w: World, c: ConnId)
    requires Reached(w) && c in w.sh.chan
    ensures Reader(c) in w.threads
    ensures
      var answered, asked, reader := Answered(w.sh.Log(c)), w.sh.Requests(c), w.On(Reader(c));
      && answered <= asked
      && (!w.sh.Closing(c) ==> asked == answered + Owed(Owes(reader.phase), reader.serving.rid))
      && (!w.sh.Closing(c) && reader.phase == Out(Idle) ==> asked == answered)
  {
    hide Reached, ThreadOk, Answered;
    AlwaysReplies(w);
    assert Accounted(w.sh.chan[c], Owes(w.Phase(Reader(c))), w.Served(Reader(c)).rid);
  }

  // ----- Requests that fail -----

  /** While one request is served, the connection's reader does not return to waiting for frames. */
  predicate Busy(w: World, c: ConnId) {
    Reader(c) in w.threads && w.Phase(Reader(c)) != Out(Idle)
  }

  ghost predicate ServesThroughout(run: seq<World>, events: seq<Event>, c: ConnId) {
    Follows(run, events) && forall w :: w in run ==> Reached(w) && Busy(w, c)
  }

  /** A stretch of a run from v to w in which one request is served. */
  ghost predicate BusyUntil(v: World, w: World, c: ConnId) {
    exists run, events :: ServesThroughout(run, events, c) && run[0] == v && run[|events|] == w
  }

  /** What a step does to the notes of a reader that is busy. */
  lemma StepNotes(w: World, e: Event, c: ConnId)
    requires Reached(w) && Enabled(w, e) && Busy(w, c)
    ensures w.Served(Reader(c)).wrote ==> Step(w, e).Served(Reader(c)).wrote
    ensures match e
      case Go(t, ch) => t == Reader(c) && Step(w, e).sh.db != w.sh.db ==> Step(w, e).Served(Reader(c)).wrote
      case _ => true
  {
    hide Reached, LockInv, Global, Justified, Replies, RunThread, CanRun, Environment, ThreadOk, Balance, Speaks, Does;
    Always(w);
    AlwaysReplies(w);
    match e
    case Go(t, ch) =>
      GoReplies(w, t, ch);
      RunThreads(w, t, ch);
    case _ => EnvironmentOf(w, e);
  }

  lemma WriteStays(v: World, w: World, c: ConnId)
    requires BusyUntil(v, w, c) && v.Served(Reader(c)).wrote
    ensures Reached(w) && w.Served(Reader(c)).wrote
  {
    hide Reached, Enabled, Step, Busy;
    var run: seq<World>, events: seq<Event> :| ServesThroughout(run, events, c) && run[0] == v && run[|events|] == w;
    var k := 0;
    while k < |events|
      invariant 0 <= k <= |events| && run[k].Served(Reader(c)).wrote
    {
      assert Enabled(run[k], events[k]) && run[k + 1] == Step(run[k], events[k]) && run[k] in run;
      StepNotes(run[k], events[k], c);
      k := k + 1;
    }
  }

  /**
   * A request that is about to be answered with an error other than `internal` has left the store alone: no step
   * its connection's reader took for it changed a stored player, a stored game or an activity time.
   */
  lemma FailedRequestsWriteNothing(w: World, c: ConnId, ch: Choice, x: World, code: Code)
    requires Reached(w) && Busy(w, c) && Enabled(w, Go(Reader(c), ch)) && BusyUntil(Step(w, Go(Reader(c), ch)), x, c)
    requires x.Phase(Reader(c)) == Out(SendErr(code)) && code != Internal
    ensures Step(w, Go(Reader(c), ch)).sh.db == w.sh.db
  {
    hide Reached, Enabled, Step, Replies, BusyUntil;
    StepNotes(w, Go(Reader(c), ch), c);
    if Step(w, Go(Reader(c), ch)).sh.db != w.sh.db {
      WriteStays(Step(w, Go(Reader(c), ch)), x, c);
      AlwaysReplies(x);
      ThreadOkOf(x, Reader(c));
    }
  }

  // ----- Requests that succeed -----

  /** The control state serves action a, and has yet to write. */
  predicate ForOut(o: OutPc, a: Action) {
    o == Idle || ForBusy(o, a)
  }

  predicate ForBusy(o: OutPc, a: Action) {
    match o
    case Dispatch(b) => b == a
    case Gate(b) => b == a && !a.Unknown?
    case AuthCheck(p, digest) => a == Authenticate(p, digest)
    case AuthLoad(p, digest) => a == Authenticate(p, digest)
    case AuthTouch(p) => (match a case Authenticate(q, _) => q == p case _ => false)
    case ConnLoad(g, digest) => a == Connect(g, digest)
    case ConnPlayer(g, digest) => a == Connect(g, digest)
    case ConnCurrent(g, _, digest) => a == Connect(g, digest)
    case WithGame(b) => b == a && a.NeedsGame()
    case Lock(g, i) => ForStart(g, i, a)
    case DetachRead(_, _, k) => ForConnect(k, a)
    case SendErr(_) => true
    case _ => false
  }

  predicate ForConnect(k: Resume, a: Action) {
    match k
    case GoConnect(g, _, digest) => a == Connect(g, digest)
    case _ => false
  }

  predicate ForStart(g: GameId, i: InPc, a: Action) {
    match i
    case ConnReload(_, digest) => a == Connect(g, digest)
    case ActCheck(b) => b == a && a.NeedsGame()
    case DetachCheck(_, _, k) => ForConnect(k, a)
    case _ => false
  }

  predicate ForIn(g: GameId, i: InPc, a: Action) {
    ForStart(g, i, a) || ForBody(g, i, a)
  }

  predicate ForBody(g: GameId, i: InPc, a: Action) {
    match i
    case ConnSave(_, _, _, _) => (match a case Connect(h, _) => h == g case _ => false)
    case ActLoad(b, _, _) => b == a && a.NeedsGame()
    case ActSave(b, _, _, _) => b == a && a.NeedsGame()
    case Sends(_, msgs, _, _, k) => !Replying(msgs) && (match k case ThenLeave(o) => ForOut(o, a) case _ => false)
    case LeaveLock(o) => ForOut(o, a)
    case _ => false
  }

  predicate For(phase: Phase, a: Action) {
    match phase
    case Out(o) => ForOut(o, a)
    case Waiting(g, _, i) => ForIn(g, i, a)
    case Inside(g, _, i) => ForIn(g, i, a)
    case Exiting(_, _, o) => ForOut(o, a)
  }

  /** The effect saves what action a of connection c is for. */
  ghost predicate Saves(sh: Shared, c: ConnId, a: Action, e: Effect, now: Time) {
    match e
    case Touch(p, at) => at == now && (match a case Authenticate(q, _) => q == p case _ => false)
    case Save(g, row, actor, at, commit, _) =>
      && at == now && actor.Some? && sh.PlayerOn(c) == actor && SaveGame(sh.db, g, row, actor, now).Success?
      && (match a
          case Connect(h, _) => h == g && commit in {Reconnected, Changed(Join)}
          case _ => a.NeedsGame() && exists seat :: sh.Place(c) == At(g, seat) && commit == Changed(AttemptOf(a, seat)))
    case _ => false
  }

  ghost predicate Commits(sh: Shared, sh': Shared, g: GameId, commit: Commit) {
    g in sh.saves && sh'.Saves(g).commits == sh.Saves(g).commits + [commit]
  }

  /** What an action of connection c is for has been saved, at a time. */
  ghost predicate SavedFor(sh: Shared, sh': Shared, c: ConnId, a: Action, now: Time) {
    match a
    case Authenticate(p, _) => sh'.db == TouchPlayer(sh.db, p, now)
    case Connect(g, _) => Commits(sh, sh', g, Reconnected) || Commits(sh, sh', g, Changed(Join))
    case _ =>
      match sh.Place(c)
      case At(g, seat) => Commits(sh, sh', g, Changed(AttemptOf(a, seat)))
      case Nowhere => false
  }

  lemma DoSavesFor(sh: Shared, c: ConnId, a: Action, e: Effect, now: Time)
    requires DbOk(sh) && Saves(sh, c, a, e, now)
    ensures SavedFor(sh, Do(sh, e), c, a, now)
  {
    hide TouchPlayer, AttemptOf;
  }

  lemma FreeFor(sh: Shared, c: ConnId, sv: Serving, o: OutPc, ch: Choice, a: Action)
    requires ForOut(o, a) && o != Idle && !sv.wrote && !o.Lock?
    ensures
      var to := Free(sh, Reader(c), sv, o, ch);
      if to.serving.wrote then Saves(sh, c, a, FreeDoes(sh, Reader(c), sv, o, ch), ch.now) else ForOut(to.pc, a)
  {
    hide Load, Before, Bind, Forget, TouchPlayer, DeletePlayer, Send, Close;
  }

  lemma ConnSaveFor(sh: Shared, c: ConnId, g: GameId, sv: Serving, p: PlayerId, copy: Game, seat: Seat, joined: bool,
                    ch: Choice, a: Action)
    requires ForIn(g, ConnSave(p, copy, seat, joined), a) && sh.PlayerOn(c) == Some(p) && !sv.wrote
    ensures
      var i := ConnSave(p, copy, seat, joined);
      var to := Body(sh, Reader(c), g, sv, i, ch);
      if to.serving.wrote then Saves(sh, c, a, BodyDoes(sh, Reader(c), g, i, ch), ch.now) else ForIn(g, to.pc, a)
  {
    hide SaveGame, Shared.SeatTaken, Shared.PlayerOn, Attach;
  }

  lemma ActSaveFor(sh: Shared, c: ConnId, g: GameId, sv: Serving, b: Action, seat: Seat, p: PlayerId, copy: Game,
                   ch: Choice, a: Action)
    requires ForIn(g, ActSave(b, seat, p, copy), a) && sh.PlayerOn(c) == Some(p) && sh.Place(c) == At(g, seat)
    requires !sv.wrote
    ensures
      var i := ActSave(b, seat, p, copy);
      var to := Body(sh, Reader(c), g, sv, i, ch);
      if to.serving.wrote then Saves(sh, c, a, BodyDoes(sh, Reader(c), g, i, ch), ch.now) else ForIn(g, to.pc, a)
  {
    hide SaveGame, AttemptOf, AfterOk, Shared.PlayerOn, Shared.Place;
  }

  lemma StartedFor(sh: Shared, c: ConnId, g: GameId, sv: Serving, i: InPc, ch: Choice, a: Action)
    requires ForIn(g, i, a) && (i.ConnReload? || i.ActCheck? || i.ActLoad?)
    ensures var to := Body(sh, Reader(c), g, sv, i, ch); to.serving == sv && ForIn(g, to.pc, a)
  {
    hide Load, JoinGame, Apply, AttemptOf, ForConnect;
  }

  lemma DetachingFor(sh: Shared, c: ConnId, g: GameId, sv: Serving, d: ConnId, tries: int, k: Resume, ch: Choice,
      a: Action)
    requires ForIn(g, DetachCheck(d, tries, k), a)
    ensures var to := Body(sh, Reader(c), g, sv, DetachCheck(d, tries, k), ch); to.serving == sv && ForIn(g, to.pc, a)
  {
    hide Detach;
  }

  lemma SendsFor(sh: Shared, c: ConnId, g: GameId, sv: Serving, i: InPc, ch: Choice, a: Action)
    requires ForIn(g, i, a) && i.Sends?
    ensures var to := Body(sh, Reader(c), g, sv, i, ch); to.serving == sv && ForIn(g, to.pc, a)
  {
    hide ForOut, Send, Rendered;
  }

  lemma BodyFor(sh: Shared, c: ConnId, g: GameId, sv: Serving, i: InPc, ch: Choice, a: Action)
    requires ForIn(g, i, a) && !sv.wrote && Local(sh, Reader(c), g, i) && !i.LeaveLock?
    ensures
      var to := Body(sh, Reader(c), g, sv, i, ch);
      if to.serving.wrote then Saves(sh, c, a, BodyDoes(sh, Reader(c), g, i, ch), ch.now) else ForIn(g, to.pc, a)
  {
    hide Body, BodyDoes, Saves, Local, ForOut, ForConnect;
    assert Reader(c).Mine() == c;
    Savers(sh, Reader(c), g, i);
    match i
    case ConnSave(p, copy, seat, joined) => ConnSaveFor(sh, c, g, sv, p, copy, seat, joined, ch, a);
    case ActSave(b, seat, p, copy) => ActSaveFor(sh, c, g, sv, b, seat, p, copy, ch, a);
    case Sends(_, _, _, _, _) => SendsFor(sh, c, g, sv, i, ch, a);
    case DetachCheck(d, tries, k) => DetachingFor(sh, c, g, sv, d, tries, k, ch, a);
    case _ => StartedFor(sh, c, g, sv, i, ch, a);
  }

  lemma GoFor(w: World, c: ConnId, ch: Choice, a: Action)
    requires Inv(w) && CanRun(w, Reader(c), ch) && Busy(w, c) && For(w.Phase(Reader(c)), a)
        && !w.Served(Reader(c)).wrote
    ensures
      var w' := RunThread(w, Reader(c), ch);
      if w'.Served(Reader(c)).wrote then Saves(w.sh, c, a, Does(w, Go(Reader(c), ch)), ch.now)
          else For(w'.Phase(Reader(c)), a)
  {
    hide Inv, Free, FreeDoes, Body, BodyDoes, Local, Saves, ForOut, ForIn, ListsGames, ListsConns;
    var t := Reader(c);
    match w.Phase(t)
    case Out(o) =>
      if o.Lock? {
        LockFor(o, a);
      } else {
        FreeFor(w.sh, c, w.Served(t), o, ch, a);
      }
    case Inside(g, _, i) =>
      BodyOf(w, t, ch);
      if i.LeaveLock? {
        LeaveFor(g, i, a);
      } else {
        BodyFor(w.sh, c, g, w.Served(t), i, ch, a);
      }
    case _ =>
  }

  lemma LockFor(o: OutPc, a: Action)
    requires ForOut(o, a)
    ensures match o case Lock(g, i) => ForIn(g, i, a) case _ => true
  {
  }

  lemma LeaveFor(g: GameId, i: InPc, a: Action)
    requires ForIn(g, i, a)
    ensures match i case LeaveLock(o) => ForOut(o, a) case _ => true
  {
  }

  /** The connection's reader is about to send `ok`, or the game it has connected to. */
  predicate AboutToConfirm(phase: Phase) {
    || (phase.Out? && phase.Going().AuthReply?)
    || (phase.Inside? && AboutToReply(phase.Doing()))
  }

  predicate AboutToReply(i: InPc) {
    match i
    case Sends(_, msgs, _, _, _) => Replying(msgs)
    case _ => false
  }

  /** Until a request is saved, its reader serves it; then it has been. */
  lemma StepFor(w: World, e: Event, c: ConnId, a: Action)
    requires Reached(w) && Enabled(w, e) && Busy(w, c) && For(w.Phase(Reader(c)), a) && !w.Served(Reader(c)).wrote
    ensures
      if Step(w, e).Served(Reader(c)).wrote
      then exists ch :: e == Go(Reader(c), ch) && SavedFor(w.sh, Step(w, e).sh, c, a, ch.now)
      else For(Step(w, e).Phase(Reader(c)), a)
  {
    hide Reached, LockInv, Justified, RegOk, SeatsHeld, LogsOk, HistoriesOk, RunThread, CanPass, ListsConns,
        Environment,
        Does, Do, Saves, SavedFor, ForOut, ForIn, Rely;
    Always(w);
    match e
    case Go(t, ch) =>
      RunThreads(w, t, ch);
      if t == Reader(c) {
        GoFor(w, c, ch, a);
        StepDo(w, e);
        if Step(w, e).Served(Reader(c)).wrote {
          DoSavesFor(w.sh, c, a, Does(w, e), ch.now);
        }
      }
    case _ => EnvironmentOf(w, e);
  }

  /**
   * A request that is about to be confirmed has been saved: some step its connection's reader took for it touched the
   * player who is authenticating, at the time of the step, saved the game it connects to, or saved the action's own
   * attempt, from the connection's own seat, in the game the connection is in.
   */
  lemma ConfirmedRequestsAreSaved(v: World, x: World, c: ConnId, a: Action) returns (w: World, ch: Choice)
    requires BusyUntil(v, x, c) && v.Phase(Reader(c)) == Out(Dispatch(a)) && AboutToConfirm(x.Phase(Reader(c)))
    ensures Enabled(w, Go(Reader(c), ch)) && BusyUntil(v, w, c) && BusyUntil(Step(w, Go(Reader(c), ch)), x, c)
    ensures SavedFor(w.sh, Step(w, Go(Reader(c), ch)).sh, c, a, ch.now)
  {
    hide Reached, Enabled, Step, Busy, SavedFor;
    var run: seq<World>, events: seq<Event> :| ServesThroughout(run, events, c) && run[0] == v && run[|events|] == x;
    NotSavedYet(v, x, c, a);
    var k := 0;
    while !run[k + 1].Served(Reader(c)).wrote
      invariant 0 <= k < |events| && !run[k].Served(Reader(c)).wrote && For(run[k].Phase(Reader(c)), a)
      decreases |events| - k
    {
      assert Enabled(run[k], events[k]) && run[k + 1] == Step(run[k], events[k]) && run[k] in run;
      StepFor(run[k], events[k], c, a);
      k := k + 1;
    }
    assert Enabled(run[k], events[k]) && run[k + 1] == Step(run[k], events[k]) && run[k] in run;
    StepFor(run[k], events[k], c, a);
    ch :| events[k] == Go(Reader(c), ch) && SavedFor(run[k].sh, run[k + 1].sh, c, a, ch.now);
    w := run[k];
    Splits(run, events, k, c);
  }

  lemma NotSavedYet(v: World, x: World, c: ConnId, a: Action)
    requires Reached(v) && Reached(x) && Busy(v, c) && Busy(x, c)
    requires v.Phase(Reader(c)) == Out(Dispatch(a)) && AboutToConfirm(x.Phase(Reader(c)))
    ensures For(v.Phase(Reader(c)), a) && !v.Served(Reader(c)).wrote && x.Served(Reader(c)).wrote
  {
    hide Reached, Replies, ShapeIn;
    AlwaysReplies(v);
    AlwaysReplies(x);
    ThreadOkOf(v, Reader(c));
    ThreadOkOf(x, Reader(c));
  }

  /** Both parts of a stretch are stretches. */
  lemma Splits(run: seq<World>, events: seq<Event>, k: nat, c: ConnId)
    requires ServesThroughout(run, events, c) && k < |events|
    ensures BusyUntil(run[0], run[k], c) && BusyUntil(run[k + 1], run[|events|], c)
  {
    hide Reached, Enabled, Step, Busy;
    assert ServesThroughout(run[..k + 1], events[..k], c) && run[..k + 1][0] == run[0] && run[..k + 1][k] == run[k];
    var run', events' := run[k + 1..], events[k + 1..];
    forall n | 0 <= n < |events'| ensures Enabled(run'[n], events'[n]) && run'[n + 1] == Step(run'[n], events'[n]) {
      assert Enabled(run[k + 1 + n], events[k + 1 + n]) && run[k + 2 + n] == Step(run[k + 1 + n], events[k + 1 + n]);
    }
    assert ServesThroughout(run', events', c) && run'[|events'|] == run[|events|];
  }
}
