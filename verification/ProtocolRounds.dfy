/**
 * The detach loop locks a connection's game and checks that the connection is still in it; if not, it tries
 * again. It never has to try more than three times: while it runs, only the connection's own reader could
 * attach the connection again, and it does so at most once, because the connection is closing.
 */
module ProtocolRounds {
  import opened Timestamps
  import opened Rules
  import opened Store
  import opened Registry
  import opened Protocol
  import opened ProtocolDoes
  import opened ProtocolLocks
  import opened ProtocolInvariant
  import opened ProtocolSafety

  // ----- Readers that may still attach their connection without dispatching another request -----

  predicate AttachingStart(i: InPc) {
    match i
    case ConnReload(_, _) => true
    case DetachCheck(_, _, k) => k.GoConnect?
    case _ => false
  }

  predicate AttachingOut(o: OutPc) {
    match o
    case Gate(a) => a.Connect?
    case Lock(_, i) => AttachingStart(i)
    case DetachRead(_, _, k) => k.GoConnect?
    case _ => o.ConnLoad? || o.ConnPlayer? || o.ConnCurrent?
  }

  predicate AttachingIn(i: InPc) {
    match Onward(i)
    case Some(o) => AttachingOut(o)
    case None => AttachingStart(i) || i.ConnSave? || i.ConnAttach?
  }

  predicate Attaching(phase: Phase) {
    match phase
    case Out(o) => AttachingOut(o)
    case Waiting(_, _, i) => AttachingIn(i)
    case Inside(_, _, i) => AttachingIn(i)
    case Exiting(_, _, o) => AttachingOut(o)
  }

  /** How often connection d may still be attached while goroutine t detaches it. */
  function Attachments(w: World, t: Tid, d: ConnId): nat {
    if t != Reader(d) && Reader(d) in w.threads && Attaching(w.Phase(Reader(d))) then 1 else 0
  }

  const ROUNDS := 2

  /** After `tries` failed rounds: each that follows takes an attachment away. */
  predicate ReadBound(w: World, t: Tid, d: ConnId, tries: int) {
    tries + (if w.sh.Place(d).At? then 1 else 0) + Attachments(w, t, d) <= ROUNDS
  }

  predicate CheckBound(w: World, t: Tid, g: GameId, d: ConnId, tries: int) {
    tries + 1 + (if w.sh.Place(d).At? && !w.sh.Place(d).In(g) then 1 else 0) + Attachments(w, t, d) <= ROUNDS
  }

  /** The round of the loop a goroutine is in: about to read where connection d is, or to check that it is in game g. */
  datatype Round = NoRound | Reading(ConnId, int) | Checking(ConnId, int, GameId)

  function RoundAt(o: OutPc): Round {
    match o
    case DetachRead(d, tries, _) => Reading(d, tries)
    case Lock(g, DetachCheck(d, tries, _)) => Checking(d, tries, g)
    case _ => NoRound
  }

  function RoundIn(g: GameId, i: InPc): Round {
    match i
    case DetachCheck(d, tries, _) => Checking(d, tries, g)
    case LeaveLock(o) => RoundAt(o)
    case _ => NoRound
  }

  function RoundOf(phase: Phase): Round {
    match phase
    case Out(o) => RoundAt(o)
    case Waiting(g, _, i) => RoundIn(g, i)
    case Inside(g, _, i) => RoundIn(g, i)
    case Exiting(_, _, o) => RoundAt(o)
  }

  predicate Within(w: World, t: Tid, r: Round) {
    match r
    case NoRound => true
    case Reading(d, tries) => ReadBound(w, t, d, tries)
    case Checking(d, tries, g) => CheckBound(w, t, g, d, tries)
  }

  /** Only a failed round is followed by another: nothing else under a lock leads to the loop. */
  predicate NoReentry(i: InPc) {
    i.LeaveLock? || match Onward(i) case Some(o) => RoundAt(o) == NoRound case None => true
  }

  ghost predicate Bounded(w: World, t: Tid) {
    Within(w, t, RoundOf(w.Phase(t))) && (w.Phase(t).Inside? ==> NoReentry(w.Phase(t).Doing()))
  }

  ghost predicate Rounds(w: World) {
    forall t :: t in w.threads ==> Bounded(w, t)
  }

  // ----- Who attaches -----

  /** Only sitting down takes a connection into a game. */
  lemma DoPlaces(sh: Shared, e: Effect, d: ConnId)
    ensures
      || Do(sh, e).Place(d) == sh.Place(d) || Do(sh, e).Place(d) == Nowhere
      || match e case Sit(c, _, _) => c == d case _ => false
  {
    hide TouchPlayer, DeletePlayer, DeleteGame, SaveGame, CreateGame, Send, Close;
  }

  /** The reader of a closing connection does not begin to attach it again. */
  lemma FreeAttaching(sh: Shared, t: Tid, sv: Serving, o: OutPc, ch: Choice)
    requires OutOk(sh, t, o) && sh.Closing(t.Mine()) && t.Reader?
    ensures AttachingOut(Free(sh, t, sv, o, ch).pc) ==> AttachingOut(o)
  {
    hide Load, Before, TouchPlayer, DeletePlayer, Covers, Send, Close, Bind, Forget;
  }

  lemma BodyAttaching(sh: Shared, t: Tid, g: GameId, sv: Serving, i: InPc, ch: Choice)
    requires !i.LeaveLock?
    ensures AttachingIn(Body(sh, t, g, sv, i, ch).pc) ==> AttachingIn(i) && !i.ConnAttach?
  {
    hide Load, Before, Shared.Sent, Shared.Closed, Shared.View, Shared.SeatsIn, Final, Rendered, Apply, AttemptOf,
        Saved,
        JoinGame, Attach, Detach, DetachSet, After;
  }

  lemma GoAttaching(w: World, t: Tid, ch: Choice)
    requires Justified(w) && CanRun(w, t, ch) && t.Reader? && w.sh.Closing(t.Mine())
    ensures Attaching(RunThread(w, t, ch).Phase(t)) ==> Attaching(w.Phase(t)) && !Does(w, Go(t, ch)).Sit?
    ensures Does(w, Go(t, ch)).Sit? ==> Attaching(w.Phase(t))
  {
    hide Justified, Free, Body, OutOk, StartOk, InOk, ListsGames, ListsConns;
    PhaseOf(w, t);
    match w.Phase(t)
    case Out(o) =>
      if o.Lock? {
        StartsPlain(w.sh, t, o.game, o.body);
      } else {
        FreeAttaching(w.sh, t, w.Served(t), o, ch);
      }
    case Inside(g, _, i) =>
      if !i.LeaveLock? {
        BodyAttaching(w.sh, t, g, w.Served(t), i, ch);
      }
    case _ =>
  }

  // ----- The steps of others -----

  /** What goroutine t may still have to undo in detaching connection d does not grow. */
  ghost predicate Calmer(w: World, w': World, t: Tid, d: ConnId) {
    && Attachments(w', t, d) <= Attachments(w, t, d)
    && (w'.sh.Place(d) == w.sh.Place(d) || w'.sh.Place(d) == Nowhere || Attachments(w', t, d) < Attachments(w, t, d))
  }

  lemma CalmerKeeps(w: World, w': World, t: Tid, r: Round)
    requires Within(w, t, r)
    requires match r
      case NoRound => true
      case Reading(d, _) => Calmer(w, w', t, d)
      case Checking(d, _, _) => Calmer(w, w', t, d)
    ensures Within(w', t, r)
  {
    hide Attachments;
  }

  /** A step of somebody else. */
  lemma OthersCalmer(w: World, e: Event, t: Tid, d: ConnId)
    requires Inv(w) && Enabled(w, e) && (match e case Go(s, _) => s != t case _ => true)
    requires d in w.sh.chan && (t == Reader(d) || w.sh.Closing(d))
    ensures Calmer(w, Step(w, e), t, d)
  {
    hide LockInv, Global, Justified, Attaching, Do, RunThread, CanPass, ListsConns, Environment, BodyDoes, FreeDoes;
    StepDo(w, e);
    DoPlaces(w.sh, Does(w, e), d);
    match e
    case Go(s, ch) =>
      RunThreads(w, s, ch);
      SitsItself(w, s, ch, d);
      if s == Reader(d) {
        GoAttaching(w, s, ch);
      }
    case _ =>
  }

  lemma SitsItself(w: World, s: Tid, ch: Choice, d: ConnId)
    requires Inv(w) && s in w.threads
    ensures match Does(w, Go(s, ch)) case Sit(c, _, _) => s == Reader(c) case _ => true
  {
    hide LockInv, Global, Justified, FreeDoes, OutOk, InOk, StartOk, RowOk;
    match w.Phase(s)
    case Inside(g, _, i) =>
      BodyOf(w, s, ch);
      assert i.ConnAttach? ==> s.Reader?;
    case Out(o) => FreeSitsNot(w.sh, s, w.Served(s), o, ch);
    case _ =>
  }

  lemma FreeSitsNot(sh: Shared, t: Tid, sv: Serving, o: OutPc, ch: Choice)
    ensures !FreeDoes(sh, t, sv, o, ch).Sit?
  {
  }

  /** The connection being detached is the goroutine's own, or closing. */
  lemma RoundsConn(sh: Shared, t: Tid, phase: Phase)
    requires PhaseOk(sh, t, phase)
    ensures match RoundOf(phase)
      case NoRound => true
      case Reading(d, _) => d in sh.chan && (t == Reader(d) || sh.Closing(d))
      case Checking(d, _, _) => d in sh.chan && (t == Reader(d) || sh.Closing(d))
  {
    hide Covers, AttachedOk, ToldOk, CopyOk, RowOk;
  }

  lemma OtherBounded(w: World, e: Event, t: Tid)
    requires Inv(w) && Enabled(w, e) && (match e case Go(s, _) => s != t case _ => true)
    requires t in w.threads && Bounded(w, t)
    ensures t in Step(w, e).threads && Bounded(Step(w, e), t)
  {
    hide LockInv, Global, Justified, Within, Calmer, Free, Body, CanRun, Environment, NoReentry;
    PhaseOf(w, t);
    RoundsConn(w.sh, t, w.Phase(t));
    match RoundOf(w.Phase(t)) {
      case Reading(d, _) => OthersCalmer(w, e, t, d);
      case Checking(d, _, _) => OthersCalmer(w, e, t, d);
      case NoRound =>
    }
    CalmerKeeps(w, Step(w, e), t, RoundOf(w.Phase(t)));
    StaysPut(w, e, t);
  }

  lemma StaysPut(w: World, e: Event, t: Tid)
    requires Inv(w) && Enabled(w, e) && t in w.threads && (match e case Go(s, _) => s != t case _ => true)
    ensures t in Step(w, e).threads && Step(w, e).On(t) == w.On(t)
  {
    hide LockInv, Global, PhaseOk, Settled, LockFree, RunThread, Environment, CanPass, ListsConns;
    match e
    case Go(s, ch) => RunThreads(w, s, ch);
    case NewConn(c) => assert Reader(c).Mine() == c;
    case _ =>
  }

  // ----- One's own steps -----

  /** Where a step outside locks takes the loop. */
  lemma FreeRound(sh: Shared, t: Tid, sv: Serving, o: OutPc, ch: Choice)
    requires OutOk(sh, t, o) && !o.Lock?
    ensures
      var to := Free(sh, t, sv, o, ch);
      match RoundAt(to.pc)
      case NoRound => true
      case Reading(_, tries) => tries == 0
      case Checking(d, tries, g) => RoundAt(o) == Reading(d, tries) && sh.Place(d).In(g) && to.sh == sh
  {
    hide Load, Before, TouchPlayer, DeletePlayer, Covers, Send, Close, Bind, Forget;
  }

  /** A failed round leads to the next one. */
  lemma CheckRound(sh: Shared, t: Tid, g: GameId, sv: Serving, d: ConnId, tries: int, k: Resume, ch: Choice)
    ensures
      var to := Body(sh, t, g, sv, DetachCheck(d, tries, k), ch);
      && NoReentry(to.pc)
      && (RoundIn(g, to.pc) == NoRound
          || (RoundIn(g, to.pc) == Reading(d, tries + 1) && !sh.Place(d).In(g) && to.sh == sh))
  {
    hide Detach;
  }

  /** Nothing else under a lock leads to a round. */
  lemma NoRounds(sh: Shared, t: Tid, g: GameId, sv: Serving, i: InPc, ch: Choice)
    requires NoReentry(i) && !i.LeaveLock? && !i.DetachCheck?
    ensures var to := Body(sh, t, g, sv, i, ch); NoReentry(to.pc) && RoundIn(g, to.pc) == NoRound
  {
    hide Load, Before, Shared.Sent, Shared.Closed, Shared.View, Shared.SeatsIn, Final, Rendered, Apply, AttemptOf,
        Saved,
        JoinGame, Attach, Detach, DetachSet, After, DeleteGame;
  }

  lemma BodyRound(sh: Shared, t: Tid, g: GameId, sv: Serving, i: InPc, ch: Choice)
    requires NoReentry(i) && !i.LeaveLock?
    ensures
      var to := Body(sh, t, g, sv, i, ch);
      && NoReentry(to.pc)
      && match RoundIn(g, to.pc)
         case NoRound => true
         case Reading(d, tries) => RoundIn(g, i) == Checking(d, tries - 1, g) && !sh.Place(d).In(g) && to.sh == sh
         case Checking(_, _, _) => false
  {
    hide Body, NoReentry, RoundAt;
    match i
    case DetachCheck(d, tries, k) => CheckRound(sh, t, g, sv, d, tries, k, ch);
    case _ => NoRounds(sh, t, g, sv, i, ch);
  }

  lemma SameAttachments(w: World, w': World, t: Tid)
    requires w'.threads == w.threads[t := w'.On(t)]
    ensures forall d: ConnId :: Attachments(w', t, d) == Attachments(w, t, d) <= 1
  {
  }

  /** A round is begun, failed or left; or it goes on. */
  ghost predicate Advances(sh: Shared, sh': Shared, r: Round, r': Round) {
    || r' == NoRound
    || (r' == r && sh' == sh)
    || match r'
       case NoRound => true
       case Reading(d, 0) => true
       case Reading(d, tries) => exists g :: r == Checking(d, tries - 1, g) && !sh.Place(d).In(g) && sh' == sh
       case Checking(d, tries, g) => r == Reading(d, tries) && sh.Place(d).In(g) && sh' == sh
  }

  lemma GoAdvances(w: World, t: Tid, ch: Choice)
    requires Justified(w) && CanRun(w, t, ch) && (w.Phase(t).Inside? ==> NoReentry(w.Phase(t).Doing()))
    ensures
      var w' := RunThread(w, t, ch);
      && Advances(w.sh, w'.sh, RoundOf(w.Phase(t)), RoundOf(w'.Phase(t)))
      && (w'.Phase(t).Inside? ==> NoReentry(w'.Phase(t).Doing()))
  {
    hide Justified, Free, Body, OutOk, InOk, StartOk, ListsGames, ListsConns;
    PhaseOf(w, t);
    match w.Phase(t)
    case Out(o) =>
      if o.Lock? {
        StartsPlain(w.sh, t, o.game, o.body);
      } else {
        FreeRound(w.sh, t, w.Served(t), o, ch);
      }
    case Waiting(g, _, i) => StartsPlain(w.sh, t, g, i);
    case Inside(g, _, i) =>
      if !i.LeaveLock? {
        BodyRound(w.sh, t, g, w.Served(t), i, ch);
      }
    case _ =>
  }

  lemma AdvancesWithin(w: World, w': World, t: Tid, r: Round, r': Round)
    requires w'.threads == w.threads[t := w'.On(t)] && Within(w, t, r) && Advances(w.sh, w'.sh, r, r')
    ensures Within(w', t, r')
  {
    hide Attachments;
    SameAttachments(w, w', t);
  }

  lemma OwnBounded(w: World, t: Tid, ch: Choice)
    requires Justified(w) && CanRun(w, t, ch) && Bounded(w, t)
    ensures Bounded(RunThread(w, t, ch), t)
  {
    hide Justified, CanRun, RunThread, Within, Advances, NoReentry;
    RunThreads(w, t, ch);
    GoAdvances(w, t, ch);
    AdvancesWithin(w, RunThread(w, t, ch), t, RoundOf(w.Phase(t)), RoundOf(RunThread(w, t, ch).Phase(t)));
  }

  // ----- Every step -----

  lemma StepRounds(w: World, e: Event)
    requires Rounds(w) && Inv(w) && Enabled(w, e)
    ensures Rounds(Step(w, e))
  {
    hide LockInv, Global, PhaseOk, Settled, LockFree, Bounded, CanPass, ListsConns, RunThread, Environment;
    forall t | t in w.threads ensures t in Step(w, e).threads && Bounded(Step(w, e), t) {
      match e
      case Go(s, ch) =>
        RunThreads(w, s, ch);
        if s == t {
          OwnBounded(w, t, ch);
        } else {
          OtherBounded(w, e, t);
        }
      case _ => OtherBounded(w, e, t);
    }
    match e
    case Go(s, ch) => RunThreads(w, s, ch);
    case NewConn(c) => IdleBounded(Step(w, e), Reader(c));
    case _ =>
  }

  lemma IdleBounded(w: World, t: Tid)
    requires w.Phase(t) == Out(Idle)
    ensures Bounded(w, t)
  {
  }

  lemma InitRounds(w: World)
    requires Init(w)
    ensures Rounds(w)
  {
  }

  lemma AlwaysRounds(w: World)
    requires Reached(w)
    ensures Rounds(w)
  {
    hide *;
    forall v | Init(v) ensures Rounds(v) {
      InitRounds(v);
    }
    forall u, e | Inv(u) && Rounds(u) && Enabled(u, e) ensures Rounds(Step(u, e)) {
      StepRounds(u, e);
    }
    AlwaysKept(w, Rounds);
  }

  /** In every reachable world, no goroutine has failed to detach a connection more than twice in one loop. */
  lemma DetachingEnds(w: World, t: Tid)
    requires Reached(w) && t in w.threads
    ensures
      match RoundOf(w.Phase(t))
      case NoRound => true
      case Reading(_, tries) => tries <= 2
      case Checking(_, tries, _) => tries <= 1
  {
    hide Reached, Attachments;
    AlwaysRounds(w);
    assert Bounded(w, t);
  }
}
