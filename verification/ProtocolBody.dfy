/** Steps under game locks keep the invariant. */
module ProtocolBody {
  import opened Wrappers
  import opened Rules
  import opened Store
  import opened Registry
  import opened Protocol
  import opened ProtocolDoes
  import opened ProtocolInvariant
  import opened ProtocolRely
  import opened ProtocolEffects
  import opened ProtocolStoreEffects

  // ----- The shared state -----

  predicate Saving(i: InPc) {
    i.ConnSave? || i.ActSave? || i.ExpSave?
  }

  /** Rendering a snapshot changes whom it is for, and nothing else. */
  lemma RenderedSame(m: Msg, seats: map<ConnId, Seat>, d: ConnId)
    ensures
      var m' := Rendered(m, seats, d);
      && (m'.Direct? <==> m.Direct?) && (m.Direct? ==> m' == m) && (m' == Replaced <==> m == Replaced)
      && SnapOf(m').Some? == SnapOf(m).Some?
      && (SnapOf(m).Some? ==> SnapOf(m').value == SnapOf(m).value.(you := SnapOf(m').value.you))
  {
  }

  lemma NextSendable(sh: Shared, t: Tid, g: GameId, todo: seq<ConnId>, msgs: seq<Msg>, seats: map<ConnId, Seat>,
                     next: nat)
    requires MsgsOk(sh, t, g, todo, msgs) && next < |msgs| && todo != []
    ensures todo[0] in sh.chan && Sendable(sh, Rendered(msgs[next], seats, todo[0]), Some(g))
  {
  }

  /** Whom a goroutine saves a game for, and from where. */
  lemma Savers(sh: Shared, t: Tid, g: GameId, i: InPc)
    requires Local(sh, t, g, i)
    ensures match i
      case ConnSave(p, _, _, _) => t.Reader? && sh.PlayerOn(t.Mine()) == Some(p)
      case ActSave(_, seat, p, _) => t.Reader? && sh.PlayerOn(t.Mine()) == Some(p) && sh.Place(t.Mine()) == At(g, seat)
      case ExpSave(_, _, _, copy, _) =>
        t == Sweeper
            && (match Get(sh.db.games, g) case Some(row) => copy.lastActive == row.lastActive case None => false)
      case _ => true
  {
    hide Covers, SeatCopied, Apply, AttemptOf, JoinGame, CloseGame, StartOk, RowOk;
  }

  lemma StoredSaved(sh: Shared, g: GameId)
    requires Global(sh)
    ensures g in sh.db.games ==> g in sh.saves
  {
    hide RegOk, SeatsHeld, LogsOk, HistoriesOk;
  }

  /** Under a lock a goroutine does only what its holder may do. */
  lemma BodyAllowed(sh: Shared, t: Tid, g: GameId, i: InPc, ch: Choice)
    requires Global(sh) && Local(sh, t, g, i) && (t.Reader? ==> t.Mine() in sh.chan)
    ensures Allowed(sh, Some(t), Some(g), BodyDoes(sh, t, g, i, ch))
  {
    hide Global, Local, BodyDoes, Allowed;
    if Saving(i) {
      SavingAllowed(sh, t, g, i, ch);
    } else if i.ConnAttach? {
      StoredSaved(sh, g);
      SittingAllowed(sh, t, g, i, ch);
    } else {
      OtherAllowed(sh, t, g, i, ch);
    }
  }

  lemma SavingAllowed(sh: Shared, t: Tid, g: GameId, i: InPc, ch: Choice)
    requires Local(sh, t, g, i) && Saving(i)
    ensures Allowed(sh, Some(t), Some(g), BodyDoes(sh, t, g, i, ch))
  {
    hide StartOk, RowOk, Sendable, MaySit, Covers;
  }

  lemma SittingAllowed(sh: Shared, t: Tid, g: GameId, i: InPc, ch: Choice)
    requires Local(sh, t, g, i) && i.ConnAttach? && (t.Reader? ==> t.Mine() in sh.chan)
    requires g in sh.db.games ==> g in sh.saves
    ensures Allowed(sh, Some(t), Some(g), BodyDoes(sh, t, g, i, ch))
  {
    hide DetachOk, Covers, RowOk, SaveOk, Sendable;
    assert t == Reader(t.Mine());
  }

  lemma OtherAllowed(sh: Shared, t: Tid, g: GameId, i: InPc, ch: Choice)
    requires Local(sh, t, g, i) && !Saving(i) && !i.ConnAttach? && (t.Reader? ==> t.Mine() in sh.chan)
    ensures Allowed(sh, Some(t), Some(g), BodyDoes(sh, t, g, i, ch))
  {
    hide MsgsOk, Sendable, Covers, ThenOk, RowIs, Live, SeatCopied, Rendered, SaveOk, MaySit;
    match i
    case Sends(todo, msgs, seats, next, _) =>
      if todo != [] {
        NextSendable(sh, t, g, todo, msgs, seats, next);
      }
    case _ =>
  }

  /** A step under the lock of g keeps what always holds, and changes only what the lock protects. */
  lemma BodyKeeps(sh: Shared, t: Tid, g: GameId, sv: Serving, i: InPc, ch: Choice)
    requires Global(sh) && Local(sh, t, g, i) && (t.Reader? ==> t.Mine() in sh.chan)
    ensures
      var to := Body(sh, t, g, sv, i, ch);
      Global(to.sh) && Rely(sh, to.sh, Some(t), Some(g))
  {
    hide *;
    BodyAllowed(sh, t, g, i, ch);
    BodyDo(sh, t, g, sv, i, ch);
    DoKeeps(sh, Some(t), Some(g), BodyDoes(sh, t, g, i, ch));
  }
}
