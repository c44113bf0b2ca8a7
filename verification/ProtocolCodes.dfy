/** Close codes have their reasons: a connection closed as replaced was told so, one closed as slow had a full queue. */
module ProtocolCodes {
  import opened Wrappers
  import opened Timestamps
  import opened Rules
  import opened Store
  import opened Registry
  import opened Protocol
  import opened ProtocolDoes
  import opened ProtocolInvariant
  import opened ProtocolSafety

  /** What the close code of a connection says about what it was sent. */
  ghost predicate Explained(ch: Chan) {
    && (ch.closing == Some(CLOSE_REPLACED) ==> Replaced in ch.log)
    && (ch.closing == Some(CLOSE_SLOW_CONSUMER) ==> |ch.log| >= SEND_BUFFER)
  }

  /** The connection has been told that it is replaced, or cannot be told any more. */
  ghost predicate Noticed(sh: Shared, d: ConnId) {
    d in sh.chan && (sh.Closing(d) || Replaced in sh.Log(d))
  }

  /** Where the goroutine will continue is not the closing of a replaced connection. */
  predicate Apart(o: Option<OutPc>) {
    match o
    case Some(AuthClose(_)) => false
    case _ => true
  }

  /** No goroutine comes from a lock to close a replaced connection. */
  ghost predicate Notice(sh: Shared, phase: Phase) {
    match phase
    case Out(AuthClose(d)) => Noticed(sh, d)
    case Out(_) => true
    case Waiting(_, _, i) => Apart(Onward(i))
    case Inside(_, _, i) => Apart(Onward(i))
    case Exiting(_, _, o) => Apart(Some(o))
  }

  ghost predicate Codes(w: World) {
    && (forall c :: c in w.sh.chan ==> Explained(w.sh.chan[c]))
    && (forall t :: t in w.threads ==> Notice(w.sh, w.Phase(t)))
  }

  /** A step explains what it closes, and takes back no notice. */
  ghost predicate Explains(sh: Shared, sh': Shared) {
    && (forall c :: c in sh'.chan && (c in sh.chan ==> Explained(sh.chan[c])) ==> Explained(sh'.chan[c]))
    && (forall c :: Noticed(sh, c) ==> Noticed(sh', c))
  }

  lemma SentExplains(sh: Shared, c: ConnId, m: Msg)
    ensures Explains(sh, sh.Sent(c, m))
    ensures m == Replaced && c in sh.chan ==> Noticed(sh.Sent(c, m), c)
  {
    if c in sh.chan {
      assert m in sh.chan[c].log + [m];
    }
  }

  lemma ShutExplains(sh: Shared, c: ConnId, code: int)
    requires code != CLOSE_SLOW_CONSUMER && (code == CLOSE_REPLACED ==> Noticed(sh, c))
    ensures Explains(sh, sh.Closed(c, code))
  {
  }

  /** Closing with any code but 4000 and 4004 needs no explanation, and 4000 needs a notice. */
  lemma DoExplains(sh: Shared, e: Effect)
    requires match e
      case Shut(d, code) => code != CLOSE_SLOW_CONSUMER && (code == CLOSE_REPLACED ==> Noticed(sh, d))
      case Meet(c) => c !in sh.chan
      case _ => true
    ensures Explains(sh, Do(sh, e))
  {
    hide Bind, Forget, Attach, Detach, DetachSet, AddConn, SaveGame, CreateGame, TouchPlayer, DeletePlayer, DeleteGame,
        Shared.Sent, Shared.Closed;
    match e
    case Say(c, m) => SentExplains(sh, c, m);
    case Shut(c, code) => ShutExplains(sh, c, code);
    case _ =>
  }

  /** Only after its notice is a replaced connection closed, and only as such with that code. */
  lemma StepCloses(w: World, e: Event)
    requires Enabled(w, e) && Codes(w)
    ensures match Does(w, e)
      case Shut(d, code) => code != CLOSE_SLOW_CONSUMER && (code == CLOSE_REPLACED ==> Noticed(w.sh, d))
      case Meet(c) => c !in w.sh.chan
      case _ => true
  {
    hide Explained, ListsGames, ListsConns, Noticed;
    match e
    case Go(t, _) => assert Notice(w.sh, w.Phase(t));
    case _ =>
  }

  /** Outside locks, the notice of a replacement comes before the closing. */
  lemma FreeNotice(sh: Shared, t: Tid, sv: Serving, o: OutPc, ch: Choice)
    ensures match Free(sh, t, sv, o, ch).pc case AuthClose(d) => o == AuthNotify(d) case _ => true
  {
    hide Load, Before, Shared.Closing, Shared.Place, Shared.PlayerOn, TouchPlayer, DeletePlayer, Bind, Forget,
        Shared.Sent,
        Shared.Closed, Shared.Asked;
  }

  lemma NoticeGiven(sh: Shared, t: Tid, sv: Serving, d: ConnId, ch: Choice)
    requires d in sh.chan
    ensures Noticed(Free(sh, t, sv, AuthNotify(d), ch).sh, d)
  {
    hide Noticed, Explains;
    SentExplains(sh, d, Replaced);
  }

  lemma BodyApart(sh: Shared, t: Tid, g: GameId, sv: Serving, i: InPc, ch: Choice)
    requires Apart(Onward(i))
    ensures Apart(Onward(Body(sh, t, g, sv, i, ch).pc))
  {
    hide Load, Saved, Apply, After, Attach, Detach, DetachSet, DeleteGame, Before, AttemptOf, Shared.Sent,
        Shared.Closed,
        Shared.View, Shared.SeatsIn, Final, Rendered;
  }

  lemma GoNotice(w: World, t: Tid, ch: Choice)
    requires Codes(w) && Justified(w) && CanRun(w, t, ch)
    ensures Notice(RunThread(w, t, ch).sh, RunThread(w, t, ch).Phase(t))
  {
    hide Free, Body, InOk, StartOk, DetachOk, Covers, Justified, Noticed, ListsGames, ListsConns, Explained;
    PhaseOf(w, t);
    assert Notice(w.sh, w.Phase(t));
    match w.Phase(t)
    case Out(o) =>
      if o.Lock? {
        StartsPlain(w.sh, t, o.game, o.body);
      } else {
        FreeNotice(w.sh, t, w.Served(t), o, ch);
        if o.AuthNotify? {
          NoticeGiven(w.sh, t, w.Served(t), o.prior, ch);
        }
      }
    case Inside(g, _, i) =>
      if !i.LeaveLock? {
        BodyApart(w.sh, t, g, w.Served(t), i, ch);
      }
    case _ =>
  }

  lemma NoticeStays(sh: Shared, sh': Shared, phase: Phase)
    requires Explains(sh, sh') && Notice(sh, phase)
    ensures Notice(sh', phase)
  {
    hide Noticed, Explained;
  }

  lemma StepCodes(w: World, e: Event)
    requires Codes(w) && Inv(w) && Enabled(w, e)
    ensures Codes(Step(w, e))
  {
    hide Inv, Global, Justified, CanPass, ListsConns, Environment, RunThread, Does, Do, Explained, Noticed, Notice,
        Explains;
    InvParts(w);
    StepDo(w, e);
    StepCloses(w, e);
    DoExplains(w.sh, Does(w, e));
    var w' := Step(w, e);
    forall c | c in w'.sh.chan ensures Explained(w'.sh.chan[c]) {
      KeepsExplained(w.sh, w'.sh, c);
    }
    forall t | t in w'.threads ensures Notice(w'.sh, w'.Phase(t)) {
      match e
      case Go(s, ch) =>
        RunThreads(w, s, ch);
        if t == s {
          GoNotice(w, t, ch);
        } else {
          NoticeStays(w.sh, w'.sh, w.Phase(t));
        }
      case _ =>
        EnvironmentOf(w, e);
        if t in w.threads {
          NoticeStays(w.sh, w'.sh, w.Phase(t));
        } else {
          IdleNotice(w'.sh);
        }
    }
  }

  lemma IdleNotice(sh: Shared)
    ensures Notice(sh, Out(Idle))
  {
  }

  lemma KeepsExplained(sh: Shared, sh': Shared, c: ConnId)
    requires Explains(sh, sh') && c in sh'.chan && (c in sh.chan ==> Explained(sh.chan[c]))
    ensures Explained(sh'.chan[c])
  {
    hide Explained, Noticed;
  }

  lemma InitCodes(w: World)
    requires Init(w)
    ensures Codes(w)
  {
  }

  lemma AlwaysCodes(w: World)
    requires Reached(w)
    ensures Codes(w)
  {
    hide *;
    forall v | Init(v) ensures Codes(v) {
      InitCodes(v);
    }
    forall u, e | Inv(u) && Codes(u) && Enabled(u, e) ensures Codes(Step(u, e)) {
      StepCodes(u, e);
    }
    AlwaysKept(w, Codes);
  }

  /**
   * In every reachable world, a connection that closes as replaced has been sent the notice of it, and a connection
   * that closes as a slow consumer has been sent at least a full queue.
   */
  lemma CloseCodesAreExplained(w: World, c: ConnId)
    requires Reached(w) && c in w.sh.chan
    ensures w.sh.Code(c) == Some(CLOSE_REPLACED) ==> Replaced in w.sh.Log(c)
    ensures w.sh.Code(c) == Some(CLOSE_SLOW_CONSUMER) ==> |w.sh.Log(c)| >= SEND_BUFFER
  {
    hide Reached, Notice;
    AlwaysCodes(w);
    assert Explained(w.sh.chan[c]);
  }
}
