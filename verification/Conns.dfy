/** A connection's bounded outbound queue, and the loop that writes it to the socket. */
module Conns {
  import opened Wrappers
  import opened Registry
  import opened Protocol

  class Conn {
    /** Messages enqueued and not yet taken by the writer. */
    var out: seq<Msg>
    var closing: Option<int>
    /** Guarded by the registry lock. */
    var link: Link
    /** Everything ever enqueued, and how much of it has been taken. */
    ghost var log: seq<Msg>
    ghost var taken: nat

    ghost predicate Valid()
      reads this
    {
      && |out| <= SEND_BUFFER
      && taken <= |log| && out == log[taken..]
    }

    /** The outbound side as the protocol sees it; what the connection asked is not recorded here. */
    ghost function Outbound(): Chan
      reads this
    {
      Chan(closing, log, taken, [])
    }

    constructor ()
      ensures Valid() && Outbound() == Chan(None, [], 0, []) && link == Link(None, Nowhere)
    {
      out, closing, link := [], None, Link(None, Nowhere);
      log, taken := [], 0;
    }

    method IsClosing() returns (b: bool)
      ensures b == closing.Some?
    {
      b := closing.Some?;
    }

    /** The first call wins. */
    method Close(code: int)
      requires Valid()
      modifies this`closing
      ensures Valid() && Outbound() == Protocol.Close(old(Outbound()), code)
    {
      if closing.None? {
        closing := Some(code);
      }
    }

    /** The second half of a send, after its check: a concurrent close may come in between. */
    method Enqueue(m: Msg)
      requires Valid()
      modifies this`out, this`log, this`closing
      ensures Valid() && taken == old(taken)
      ensures log == if |old(out)| < SEND_BUFFER then old(log) + [m] else old(log)
      ensures closing == if |old(out)| < SEND_BUFFER || old(closing).Some? then old(closing)
          else Some(CLOSE_SLOW_CONSUMER)
    {
      if |out| < SEND_BUFFER {
        out := out + [m];
        log := log + [m];
      } else {
        Close(CLOSE_SLOW_CONSUMER);
      }
    }

    /** Enqueues without blocking; a full queue closes the connection. */
    method Send(m: Msg)
      requires Valid()
      modifies this`out, this`log, this`closing
      ensures Valid() && Outbound() == Protocol.Send(old(Outbound()), m)
    {
      var closed := IsClosing();
      if !closed {
        Enqueue(m);
      }
    }

    method Take() returns (m: Msg)
      requires Valid() && out != []
      modifies this`out, this`taken
      ensures Valid() && m == log[old(taken)] && taken == old(taken) + 1
    {
      m := out[0];
      out := out[1..];
      taken := taken + 1;
    }
  }

  // ----- The writer -----

  /** What other goroutines do to the connection; `Enqueues` is a send that had passed its check before. */
  datatype Arrival = Sends(msg: Msg) | Enqueues(msg: Msg) | Closes(code: int)

  datatype Ready = Outgoing | CloseRequested | Cancelled

  /**
   * One turn of a select: what happened since the last, the branch chosen among those ready, and whether a write works.
   */
  datatype Turn = Turn(arrivals: seq<Arrival>, ready: Ready, ok: bool)

  datatype Ending = Running | CutOff | ClosedWith(code: int)

  // ----- What the writer is to do -----

  function Enqueued(ch: Chan, m: Msg): Chan {
    if |ch.log| >= ch.taken + SEND_BUFFER then Protocol.Close(ch, CLOSE_SLOW_CONSUMER) else ch.(log := ch.log + [m])
  }

  function Arrives(ch: Chan, a: Arrival): Chan {
    match a
    case Sends(m) => Protocol.Send(ch, m)
    case Enqueues(m) => Enqueued(ch, m)
    case Closes(code) => Protocol.Close(ch, code)
  }

  function ArrivesAll(ch: Chan, arrivals: seq<Arrival>): Chan {
    if arrivals == [] then ch else Arrives(ArrivesAll(ch, arrivals[..|arrivals| - 1]), arrivals[|arrivals| - 1])
  }

  predicate Pending(ch: Chan) {
    ch.taken < |ch.log|
  }

  function Took(ch: Chan): Chan {
    ch.(taken := ch.taken + 1)
  }

  /** What has become of the connection, what has been written, whether a write failed, and how it ended. */
  datatype Course = Course(ch: Chan, written: seq<Msg>, failed: bool, ending: Ending)

  /** Flushing, after the close was requested with a code: until the queue is empty or a write fails. */
  function Flush(ch: Chan, turns: seq<Turn>, written: seq<Msg>, code: int): Course
    decreases |turns|
  {
    if turns == [] then Course(ch, written, false, Running)
    else
      var now := ArrivesAll(ch, turns[0].arrivals);
      if !Pending(now) then Course(now, written, false, ClosedWith(code))
      else if !turns[0].ok then Course(Took(now), written, true, ClosedWith(code))
      else Flush(Took(now), turns[1..], written + [now.log[now.taken]], code)
  }

  function Write(ch: Chan, turns: seq<Turn>, written: seq<Msg>): Course
    decreases |turns|
  {
    if turns == [] then Course(ch, written, false, Running)
    else
      var now := ArrivesAll(ch, turns[0].arrivals);
      match turns[0].ready
      case Outgoing =>
        if !Pending(now) then Write(now, turns[1..], written)
        else if !turns[0].ok then Course(Took(now), written, true, CutOff)
        else Write(Took(now), turns[1..], written + [now.log[now.taken]])
      case CloseRequested =>
        (match now.closing
         case None => Write(now, turns[1..], written)
         case Some(code) =>
           if code == CLOSE_SLOW_CONSUMER then Course(now, written, false, ClosedWith(code))
           else Flush(now, turns[1..], written, code))
      case Cancelled => Course(now, written, false, CutOff)
  }

  // ----- Laws of the writer -----

  /** Everything taken has been written, but for one message if a write failed. */
  ghost predicate Delivered(ch: Chan, written: seq<Msg>, failed: bool) {
    ch.taken <= |ch.log| &&
    if failed then ch.taken > 0 && written == ch.log[..ch.taken - 1] else written == ch.log[..ch.taken]
  }

  /** Others only add messages, and do not take back a close. */
  ghost predicate Later(ch: Chan, ch': Chan) {
    ch.log <= ch'.log && (ch.closing.Some? ==> ch'.closing == ch.closing)
  }

  lemma {:induction false} ArrivingAdds(ch: Chan, arrivals: seq<Arrival>)
    ensures Later(ch, ArrivesAll(ch, arrivals)) && ArrivesAll(ch, arrivals).taken == ch.taken
  {
    if arrivals != [] {
      ArrivingAdds(ch, arrivals[..|arrivals| - 1]);
    }
  }

  /** Flushing writes in order, and ends with an empty queue or a failed write. */
  lemma {:induction false} FlushDelivers(ch: Chan, turns: seq<Turn>, written: seq<Msg>, code: int)
    requires Delivered(ch, written, false) && ch.closing == Some(code)
    ensures
      var o := Flush(ch, turns, written, code);
      && Delivered(o.ch, o.written, o.failed) && Later(ch, o.ch) && written <= o.written
      && (o.ending == ClosedWith(code) || (o.ending == Running && !o.failed && |o.written| == |written| + |turns|))
      && (o.ending.ClosedWith? && !o.failed ==> o.written == o.ch.log)
    decreases |turns|
  {
    if turns != [] {
      hide ArrivesAll;
      ArrivingAdds(ch, turns[0].arrivals);
      var now := ArrivesAll(ch, turns[0].arrivals);
      if Pending(now) && turns[0].ok {
        FlushDelivers(Took(now), turns[1..], written + [now.log[now.taken]], code);
      }
    }
  }

  /**
   * Messages are written in the order they were enqueued and none is skipped; and whatever was enqueued is written
   * before a close frame whose code is not 4004, unless a write fails.
   */
  lemma {:induction false} WriteDelivers(ch: Chan, turns: seq<Turn>, written: seq<Msg>)
    requires Delivered(ch, written, false)
    ensures
      var o := Write(ch, turns, written);
      && Delivered(o.ch, o.written, o.failed) && Later(ch, o.ch) && written <= o.written
      && (o.ending.ClosedWith? ==> o.ch.closing == Some(o.ending.code))
      && (o.ending.ClosedWith? && o.ending.code != CLOSE_SLOW_CONSUMER && !o.failed ==> o.written == o.ch.log)
    decreases |turns|
  {
    if turns != [] {
      hide ArrivesAll, Flush;
      ArrivingAdds(ch, turns[0].arrivals);
      var now := ArrivesAll(ch, turns[0].arrivals);
      match turns[0].ready
      case Outgoing =>
        if !Pending(now) {
          WriteDelivers(now, turns[1..], written);
        } else if turns[0].ok {
          WriteDelivers(Took(now), turns[1..], written + [now.log[now.taken]]);
        }
      case CloseRequested =>
        if now.closing.None? {
          WriteDelivers(now, turns[1..], written);
        } else if now.closing.value != CLOSE_SLOW_CONSUMER {
          FlushDelivers(now, turns[1..], written, now.closing.value);
        }
      case Cancelled =>
    }
  }

  /** The turn ends the loop's writing: it is cancelled, its write fails, or it finds the connection closing. */
  predicate Decides(now: Chan, turn: Turn) {
    match turn.ready
    case Outgoing => Pending(now) && !turn.ok
    case CloseRequested => now.closing.Some?
    case Cancelled => true
  }

  /** The connection after a turn that does not: one more message is written if one could be. */
  function Turned(now: Chan, turn: Turn): Chan {
    if turn.ready == Outgoing && Pending(now) then Took(now) else now
  }

  /** Nobody enqueues any more, and no write fails. */
  predicate Silent(turns: seq<Turn>) {
    forall i :: 0 <= i < |turns| ==> turns[i].ok && forall a :: a in turns[i].arrivals ==> !a.Enqueues?
  }

  lemma {:induction false} SilentArrivals(ch: Chan, arrivals: seq<Arrival>)
    requires ch.closing.Some? && forall a :: a in arrivals ==> !a.Enqueues?
    ensures ArrivesAll(ch, arrivals) == ch
  {
    if arrivals != [] {
      SilentArrivals(ch, arrivals[..|arrivals| - 1]);
    }
  }

  /** A close that is requested gets its frame, after all that was enqueued, if the turns suffice to write that. */
  lemma {:induction false} FlushEnds(ch: Chan, turns: seq<Turn>, written: seq<Msg>, code: int)
    requires ch.closing == Some(code) && Delivered(ch, written, false) && Silent(turns) && |turns| > |ch.log| - ch.taken
    ensures
      var o := Flush(ch, turns, written, code);
      o.ending == ClosedWith(code) && !o.failed && o.written == ch.log
    decreases |turns|
  {
    SilentArrivals(ch, turns[0].arrivals);
    if Pending(ch) {
      FlushEnds(Took(ch), turns[1..], written + [ch.log[ch.taken]], code);
    }
  }

  /** How the loop ends in a turn that decides, with the rest of the turns left for flushing. */
  ghost predicate EndsBy(now: Chan, turn: Turn, rest: seq<Turn>, o: Course) {
    match turn.ready
    case Outgoing => o.ending == CutOff && o.failed && o.ch == Took(now)
    case Cancelled => o.ending == CutOff && !o.failed && o.ch == now
    case CloseRequested =>
      match now.closing
      case None => false
      case Some(code) =>
        if code == CLOSE_SLOW_CONSUMER then o.ending == ClosedWith(code) && !o.failed && o.ch == now
        else
          && (o.ending == ClosedWith(code)
              || (o.ending == Running && !o.failed && o.ch.taken == now.taken + |rest|))
          && (Silent(rest) && |rest| > |now.log| - now.taken ==> o.ending == ClosedWith(code) && o.written == now.log)
  }

  /** The run of the loop: a state before each turn that does not decide, up to the one that does, if any. */
  ghost predicate Traces(ch: Chan, turns: seq<Turn>, trace: seq<Chan>) {
    && 0 < |trace| <= |turns| + 1 && trace[0] == ch
    && forall i :: 0 <= i < |trace| - 1 ==>
         var now := ArrivesAll(trace[i], turns[i].arrivals);
         !Decides(now, turns[i]) && trace[i + 1] == Turned(now, turns[i])
  }

  /**
   * The loop writes on until a turn decides: it is cut off by exactly a cancelled turn or a failed write, goes on to
   * the close frame for a connection that is closing, and is still running only if the turns have run out, in the
   * flush at one written message for each. If nobody enqueues any more, turns for every message and the frame suffice.
   */
  lemma {:induction false} WriteEnds(ch: Chan, turns: seq<Turn>, written: seq<Msg>) returns (trace: seq<Chan>)
    requires Delivered(ch, written, false)
    ensures Traces(ch, turns, trace)
    ensures
      var o, last := Write(ch, turns, written), |trace| - 1;
      if last == |turns| then o.ending == Running && !o.failed && o.ch == trace[last]
      else
        var now := ArrivesAll(trace[last], turns[last].arrivals);
        Decides(now, turns[last]) && EndsBy(now, turns[last], turns[last + 1..], o)
    decreases |turns|
  {
    hide ArrivesAll, Flush;
    if turns == [] {
      trace := [ch];
    } else {
      var now := ArrivesAll(ch, turns[0].arrivals);
      ArrivingAdds(ch, turns[0].arrivals);
      if Decides(now, turns[0]) {
        trace := [ch];
        if turns[0].ready == CloseRequested && now.closing.value != CLOSE_SLOW_CONSUMER {
          FlushDelivers(now, turns[1..], written, now.closing.value);
          if Silent(turns[1..]) && |turns[1..]| > |now.log| - now.taken {
            FlushEnds(now, turns[1..], written, now.closing.value);
          }
        }
      } else {
        var next := Turned(now, turns[0]);
        var more := if next == now then written else written + [now.log[now.taken]];
        var later := WriteEnds(next, turns[1..], more);
        trace := [ch] + later;
        var last := |later| - 1;
        assert last < |turns| - 1 ==> turns[1..][last + 1..] == turns[last + 2..];
      }
    }
  }

  lemma NoTurnsLeft(ch: Chan, turns: seq<Turn>, written: seq<Msg>)
    ensures Write(ch, turns[|turns|..], written) == Course(ch, written, false, Running)
  {
  }

  lemma NextTurn(ch: Chan, turns: seq<Turn>, i: nat, written: seq<Msg>)
    requires i < |turns|
    ensures
      var turn, rest, now := turns[i], turns[i + 1..], ArrivesAll(ch, turns[i].arrivals);
      Write(ch, turns[i..], written) ==
        match turn.ready
        case Outgoing =>
          if !Pending(now) then Write(now, rest, written)
          else if !turn.ok then Course(Took(now), written, true, CutOff)
          else Write(Took(now), rest, written + [now.log[now.taken]])
        case Cancelled => Course(now, written, false, CutOff)
        case CloseRequested =>
          match now.closing
          case None => Write(now, rest, written)
          case Some(code) =>
            if code == CLOSE_SLOW_CONSUMER then Course(now, written, false, ClosedWith(code))
            else Flush(now, rest, written, code)
  {
    hide ArrivesAll, Flush;
    assert turns[i..][0] == turns[i] && turns[i..][1..] == turns[i + 1..];
  }

  // ----- The loop -----

  method Arrive(c: Conn, arrivals: seq<Arrival>)
    requires c.Valid()
    modifies c`out, c`log, c`closing
    ensures c.Valid() && c.taken == old(c.taken) && c.Outbound() == ArrivesAll(old(c.Outbound()), arrivals)
  {
    for i := 0 to |arrivals|
      invariant c.Valid() && c.taken == old(c.taken)
      invariant c.Outbound() == ArrivesAll(old(c.Outbound()), arrivals[..i])
    {
      assert arrivals[..i + 1][..i] == arrivals[..i];
      match arrivals[i]
      case Sends(m) => c.Send(m);
      case Enqueues(m) => c.Enqueue(m);
      case Closes(code) => c.Close(code);
    }
    assert arrivals[..|arrivals|] == arrivals;
  }

  /** Flushes what is queued; stops early at a failed write. */
  method Drain(c: Conn, turns: seq<Turn>, before: seq<Msg>, code: int)
    returns (written: seq<Msg>, failed: bool, done: bool)
    requires c.Valid()
    modifies c`out, c`taken, c`log, c`closing
    ensures c.Valid()
    ensures Course(c.Outbound(), written, failed, if done then ClosedWith(code) else Running)
         == Flush(old(c.Outbound()), turns, before, code)
  {
    written, failed, done := before, false, false;
    var i := 0;
    while i < |turns|
      invariant c.Valid() && i <= |turns| && !failed && !done
      invariant Flush(old(c.Outbound()), turns, before, code) == Flush(c.Outbound(), turns[i..], written, code)
    {
      Arrive(c, turns[i].arrivals);
      if c.out == [] {
        done := true;
        return;
      }
      var m := c.Take();
      if !turns[i].ok {
        failed, done := true, true;
        return;
      }
      written := written + [m];
      i := i + 1;
    }
  }

  /**
   * Writes what is enqueued until the connection closes, is cancelled or a write fails, whatever the other goroutines
   * do meanwhile.
   */
  method WriteLoop(c: Conn, turns: seq<Turn>) returns (written: seq<Msg>, failed: bool, ending: Ending)
    requires c.Valid() && c.taken == 0
    modifies c`out, c`taken, c`log, c`closing
    ensures c.Valid() && Course(c.Outbound(), written, failed, ending) == Write(old(c.Outbound()), turns, [])
    ensures Later(old(c.Outbound()), c.Outbound()) && Delivered(c.Outbound(), written, failed)
    ensures !failed ==> written + c.out == c.log
    ensures ending.ClosedWith? ==> c.closing == Some(ending.code)
    ensures ending.ClosedWith? && ending.code != CLOSE_SLOW_CONSUMER && !failed ==> written == c.log
  {
    hide Write, Flush, ArrivesAll;
    WriteDelivers(c.Outbound(), turns, []);
    written, failed, ending := [], false, Running;
    var i := 0;
    while i < |turns|
      invariant c.Valid() && i <= |turns| && !failed && ending == Running
      invariant Write(old(c.Outbound()), turns, []) == Write(c.Outbound(), turns[i..], written)
    {
      hide Write, Flush, ArrivesAll;
      NextTurn(c.Outbound(), turns, i, written);
      var turn := turns[i];
      i := i + 1;
      Arrive(c, turn.arrivals);
      match turn.ready {
        case Outgoing =>
          if c.out != [] {
            var m := c.Take();
            if !turn.ok {
              failed, ending := true, CutOff;
              return;
            }
            written := written + [m];
          }
        case CloseRequested =>
          if c.closing.Some? {
            var code := c.closing.value;
            var done := true;
            if code != CLOSE_SLOW_CONSUMER {
              written, failed, done := Drain(c, turns[i..], written, code);
            }
            if done {
              ending := ClosedWith(code);
            }
            return;
          }
        case Cancelled =>
          ending := CutOff;
          return;
      }
    }
    NoTurnsLeft(c.Outbound(), turns, written);
  }
}
