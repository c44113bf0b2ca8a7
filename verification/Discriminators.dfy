/** How a new player gets the discriminator that makes the display name unique, while others insert players too. */
module Discriminators {
  import opened Wrappers
  import opened Timestamps
  import opened Store

  const MAX_DISCRIMINATOR := 9999
  const DISCRIMINATOR_RETRIES := 20

  /** Why the database refuses a row: its id exists, its name is taken, or its discriminator is out of range. */
  datatype Refusal = IdExists | NameTaken | OutOfRange

  datatype CreateError = UsernameExhausted | Refused(refusal: Refusal)

  datatype Row = Row(id: PlayerId, player: Player)

  /** The discriminators in use with a base name. */
  function Taken(players: map<PlayerId, Player>, base: string): set<nat> {
    set p | p in players && players[p].base == base :: players[p].discriminator
  }

  predicate InRange(d: nat) {
    d <= MAX_DISCRIMINATOR
  }

  function Free(players: map<PlayerId, Player>, base: string): set<nat> {
    (set d: nat {:trigger InRange(d)} | 0 <= d <= MAX_DISCRIMINATOR && InRange(d)) - Taken(players, base)
  }

  /** The constraints of the players table. */
  ghost predicate Constrained(players: map<PlayerId, Player>) {
    && Db(players, map[]).UniqueNames()
    && (forall p :: p in players ==> players[p].discriminator <= MAX_DISCRIMINATOR)
  }

  function Insert(players: map<PlayerId, Player>, row: Row): Result<map<PlayerId, Player>, Refusal> {
    if row.id in players then Failure(IdExists)
    else if row.player.discriminator in Taken(players, row.player.base) then Failure(NameTaken)
    else if row.player.discriminator > MAX_DISCRIMINATOR then Failure(OutOfRange)
    else Success(players[row.id := row.player])
  }

  /** Other writers insert rows, as far as the constraints let them. */
  function InsertAll(players: map<PlayerId, Player>, rows: seq<Row>): map<PlayerId, Player> {
    if rows == [] then players
    else
      var before := InsertAll(players, rows[..|rows| - 1]);
      var r := Insert(before, rows[|rows| - 1]);
      if r.Success? then r.value else before
  }

  /** One table contains another. */
  ghost predicate Extends(players: map<PlayerId, Player>, players': map<PlayerId, Player>) {
    forall p :: p in players ==> p in players' && players'[p] == players[p]
  }

  lemma InsertConstrained(players: map<PlayerId, Player>, row: Row)
    requires Constrained(players) && Insert(players, row).Success?
    ensures Constrained(Insert(players, row).value) && Extends(players, Insert(players, row).value)
  {
    var players' := Insert(players, row).value;
    forall p, q | p in players' && q in players' && p != q
      ensures players'[p].base != players'[q].base || players'[p].discriminator != players'[q].discriminator
    {
      var db := Db(players, map[]);
      assert p in players && q in players ==>
        db.players[p].base != db.players[q].base || db.players[p].discriminator != db.players[q].discriminator;
    }
  }

  lemma {:induction false} OthersInsert(players: map<PlayerId, Player>, rows: seq<Row>)
    ensures Extends(players, InsertAll(players, rows))
    ensures Constrained(players) ==> Constrained(InsertAll(players, rows))
  {
    if rows != [] {
      OthersInsert(players, rows[..|rows| - 1]);
      var before := InsertAll(players, rows[..|rows| - 1]);
      if Constrained(before) && Insert(before, rows[|rows| - 1]).Success? {
        InsertConstrained(before, rows[|rows| - 1]);
      }
    }
  }

  lemma MoreTaken(players: map<PlayerId, Player>, players': map<PlayerId, Player>, base: string)
    requires Extends(players, players')
    ensures Taken(players, base) <= Taken(players', base) && Free(players', base) <= Free(players, base)
  {
  }

  /** What the others have inserted before the first n statements of a writer. */
  function Rivalled(players: map<PlayerId, Player>, rivals: nat -> seq<Row>, n: nat): map<PlayerId, Player> {
    if n == 0 then players else InsertAll(Rivalled(players, rivals, n - 1), rivals(n - 1))
  }

  lemma {:induction false} RivalsInsert(players: map<PlayerId, Player>, rivals: nat -> seq<Row>, n: nat)
    ensures Extends(players, Rivalled(players, rivals, n))
    ensures Constrained(players) ==> Constrained(Rivalled(players, rivals, n))
  {
    if n > 0 {
      RivalsInsert(players, rivals, n - 1);
      OthersInsert(Rivalled(players, rivals, n - 1), rivals(n - 1));
    }
  }

  lemma LosingARaceShrinks(players: map<PlayerId, Player>, players': map<PlayerId, Player>, base: string, d: nat)
    requires Extends(players, players') && d in Free(players, base) && d in Taken(players', base)
    ensures |Free(players', base)| < |Free(players, base)|
  {
    MoreTaken(players, players', base);
    assert Free(players', base) <= Free(players, base) - {d};
    SmallerSet(Free(players', base), Free(players, base) - {d});
  }

  /** A discriminator that was free when it was looked up, and has been lost since. */
  lemma Losing(before: map<PlayerId, Player>, scanned: map<PlayerId, Player>, players: map<PlayerId, Player>,
               first: seq<Row>, second: seq<Row>, base: string, d: nat)
    requires scanned == InsertAll(before, first) && players == InsertAll(scanned, second)
    requires d in Free(scanned, base) && d in Taken(players, base)
    ensures |Free(players, base)| < |Free(before, base)|
  {
    OthersInsert(before, first);
    OthersInsert(scanned, second);
    LosingARaceShrinks(scanned, players, base, d);
    MoreTaken(before, scanned, base);
    SmallerSet(Free(scanned, base), Free(before, base));
  }

  lemma FreeInRange(players: map<PlayerId, Player>, base: string, d: nat)
    requires d in Free(players, base)
    ensures d <= MAX_DISCRIMINATOR
  {
  }

  lemma SmallerSet<T>(a: set<T>, b: set<T>)
    requires a <= b
    ensures |a| <= |b|
  {
    if a != {} {
      var x :| x in a;
      SmallerSet(a - {x}, b - {x});
    }
  }

  /** A writer has inserted one row at most: all others are those of its rivals, before its first n statements. */
  ghost predicate Created(players: map<PlayerId, Player>, players': map<PlayerId, Player>, rivals: nat -> seq<Row>,
      n: nat,
                          id: PlayerId, created: Option<Player>) {
    var others := Rivalled(players, rivals, n);
    if created.None? then players' == others
    else Insert(others, Row(id, created.value)).Success? && players' == others[id := created.value]
  }

  /** The first n picks were each taken when they were tried. */
  ghost predicate Collided(players: map<PlayerId, Player>, rivals: nat -> seq<Row>, picks: seq<nat>, n: int,
                           base: string) {
    forall k :: 0 <= k < n && k < |picks| ==> picks[k] in Taken(Rivalled(players, rivals, k + 1), base)
  }

  /** The database refuses a row, but not for its name. */
  predicate RefusedFor(players: map<PlayerId, Player>, id: PlayerId, pick: nat, e: CreateError) {
    (e == Refused(IdExists) && id in players) || (e == Refused(OutOfRange) && pick > MAX_DISCRIMINATOR)
  }

  ghost predicate LeastFree(players: map<PlayerId, Player>, base: string, d: nat) {
    d in Free(players, base) && forall e: nat :: e < d ==> e in Taken(players, base)
  }

  lemma CreatedKeeps(players: map<PlayerId, Player>, players': map<PlayerId, Player>, rivals: nat -> seq<Row>, n: nat,
                     id: PlayerId, created: Option<Player>)
    requires Constrained(players) && Created(players, players', rivals, n, id, created)
    ensures Constrained(players') && Extends(players, players')
  {
    RivalsInsert(players, rivals, n);
    if created.Some? {
      InsertConstrained(Rivalled(players, rivals, n), Row(id, created.value));
    }
  }

  /** The base name, then # and four digits. */
  function DisplayName(p: Player): string {
    p.base + "#" + Pad(p.discriminator, 4)
  }

  /** No two players show the same display name. */
  lemma DisplayNamesDiffer(players: map<PlayerId, Player>, p: PlayerId, q: PlayerId)
    requires Constrained(players) && p in players && q in players && p != q
    ensures DisplayName(players[p]) != DisplayName(players[q])
  {
    var a, b := players[p], players[q];
    var x, y := DisplayName(a), DisplayName(b);
    var db := Db(players, map[]);
    assert db.players[p].base != db.players[q].base || db.players[p].discriminator != db.players[q].discriminator;
    if x == y {
      assert x[|x| - 4..] == Pad(a.discriminator, 4) && y[|y| - 4..] == Pad(b.discriminator, 4);
      assert x[..|x| - 5] == a.base && y[..|y| - 5] == b.base;
      Widths();
      PadOrder(a.discriminator, b.discriminator, 4);
    }
  }

  class Players {
    var players: map<PlayerId, Player>

    constructor (stored: map<PlayerId, Player>)
      ensures players == stored
    {
      players := stored;
    }

    /** The discriminators in use with a base name, in ascending order. */
    method Select(base: string) returns (rows: seq<nat>)
      ensures forall d :: d in rows <==> d in Taken(players, base) && d <= MAX_DISCRIMINATOR
      ensures forall i, j :: 0 <= i < j < |rows| ==> rows[i] < rows[j]
    {
      rows := [];
      for d := 0 to MAX_DISCRIMINATOR + 1
        invariant forall e :: e in rows <==> e in Taken(players, base) && e < d
        invariant forall i, j :: 0 <= i < j < |rows| ==> rows[i] < rows[j]
      {
        if d in Taken(players, base) {
          assert forall j :: 0 <= j < |rows| ==> rows[j] in rows;
          rows := rows + [d];
        }
      }
    }

    /** The least unused discriminator; there is none exactly when all 10,000 are taken. */
    method FreeDiscriminator(base: string) returns (r: Result<nat, CreateError>)
      ensures r.Success? ==> r.value in Free(players, base)
      ensures r.Success? ==> forall d: nat :: d < r.value ==> d in Taken(players, base)
      ensures r.Failure? <==> Free(players, base) == {}
      ensures r.Failure? ==> r.error == UsernameExhausted
    {
      var rows := Select(base);
      var next: nat := 0;
      var i := 0;
      while i < |rows|
        invariant 0 <= i <= |rows|
        invariant forall d: nat :: d < next ==> d in rows
        invariant forall j :: 0 <= j < |rows| ==> (j < i <==> rows[j] < next)
      {
        if rows[i] > next {
          break;
        }
        next := rows[i] + 1;
        i := i + 1;
      }
      assert next !in rows;
      assert InRange(next) ==> next in Free(players, base) || next in Taken(players, base);
      if next > MAX_DISCRIMINATOR {
        return Failure(UsernameExhausted);
      }
      return Success(next);
    }

    /** One statement, after the others have made theirs. */
    method InsertAfter(rivals: seq<Row>, row: Row) returns (refused: Option<Refusal>)
      modifies this
      ensures
        var before := InsertAll(old(players), rivals);
        match Insert(before, row)
        case Success(after) => refused.None? && players == after
        case Failure(e) => refused == Some(e) && players == before
    {
      players := InsertAll(players, rivals);
      var inserted := Insert(players, row);
      if inserted.Failure? {
        return Some(inserted.error);
      }
      players := inserted.value;
      return None;
    }

    /** Tries discriminators at random; None if each of them was taken. */
    method CreateAtRandom(id: PlayerId, base: string, digest: Digest, now: Time, picks: seq<nat>,
        rivals: nat -> seq<Row>)
      returns (r: Option<Result<Player, CreateError>>, n: nat)
      modifies this
      ensures Created(old(players), players, rivals, n, id, if r.Some? && r.value.Success? then Some(r.value.value)
          else None)
      ensures n <= |picks| && (r.None? ==> n == |picks|) && (r.Some? ==> n > 0)
      ensures Collided(old(players), rivals, picks, if r.Some? then n - 1 else n, base)
      ensures r.Some? && r.value.Success? ==> r.value.value == Player(base, picks[n - 1], digest, now)
      ensures r.Some? && r.value.Failure? ==> RefusedFor(players, id, picks[n - 1], r.value.error)
    {
      n := 0;
      for k := 0 to |picks|
        invariant n == k && players == Rivalled(old(players), rivals, n)
        invariant Collided(old(players), rivals, picks, k, base)
      {
        var player := Player(base, picks[k], digest, now);
        var refused := InsertAfter(rivals(n), Row(id, player));
        n := n + 1;
        if refused.None? {
          return Some(Success(player)), n;
        } else if refused.value != NameTaken {
          return Some(Failure(Refused(refused.value))), n;
        }
      }
      return None, n;
    }

    /** Tries the least free discriminator; None if another writer won it in between. */
    method TryFirstFree(id: PlayerId, base: string, digest: Digest, now: Time, before: seq<Row>, between: seq<Row>)
      returns (r: Option<Result<Player, CreateError>>, statements: nat)
      modifies this
      ensures statements == if r == Some(Failure(UsernameExhausted)) then 1 else 2
      ensures
        var scanned := InsertAll(old(players), before);
        var others := if statements == 1 then scanned else InsertAll(scanned, between);
        if r.Some? && r.value.Success? then Insert(others, Row(id, r.value.value)).Success?
            && players == others[id := r.value.value]
        else players == others
      ensures r.Some? && r.value.Success? ==>
          && r.value.value == Player(base, r.value.value.discriminator, digest, now)
          && LeastFree(InsertAll(old(players), before), base, r.value.value.discriminator)
      ensures r == Some(Failure(UsernameExhausted)) ==> Free(players, base) == {}
      ensures r.Some? && r.value.Failure? ==>
          (r.value.error == UsernameExhausted || (r.value.error == Refused(IdExists) && id in players))
      ensures r.None? ==> |Free(players, base)| < |Free(old(players), base)|
    {
      hide InsertAll, Free, Taken;
      players := InsertAll(players, before);
      ghost var scanned := players;
      var d := FreeDiscriminator(base);
      if d.Failure? {
        return Some(Failure(d.error)), 1;
      }
      var player := Player(base, d.value, digest, now);
      var refused := InsertAfter(between, Row(id, player));
      FreeInRange(scanned, base, d.value);
      if refused.None? {
        return Some(Success(player)), 2;
      } else if refused.value != NameTaken {
        return Some(Failure(Refused(refused.value))), 2;
      }
      Losing(old(players), scanned, players, before, between, base, d.value);
      return None, 2;
    }

    /** Takes the least free discriminator until that is won; there have been m statements before. */
    method CreateFirstFree(ghost start: map<PlayerId, Player>, id: PlayerId, base: string, digest: Digest, now: Time,
                           m: nat, rivals: nat -> seq<Row>)
      returns (r: Result<Player, CreateError>, n: nat)
      requires players == Rivalled(start, rivals, m)
      modifies this
      ensures n > m && Created(start, players, rivals, n, id, if r.Success? then Some(r.value) else None)
      ensures r.Success? ==>
          && r.value == Player(base, r.value.discriminator, digest, now)
          && LeastFree(Rivalled(start, rivals, n - 1), base, r.value.discriminator)
      ensures r == Failure(UsernameExhausted) ==> Free(players, base) == {}
      ensures r.Failure? ==> r.error == UsernameExhausted || (r.error == Refused(IdExists) && id in players)
    {
      hide InsertAll, Free, Taken, Insert, LeastFree;
      n := m;
      while true
        invariant n >= m && players == Rivalled(start, rivals, n)
        decreases |Free(players, base)|
      {
        hide InsertAll, Free, Taken, Insert, LeastFree;
        var tried, statements := TryFirstFree(id, base, digest, now, rivals(n), rivals(n + 1));
        assert Rivalled(start, rivals, n + 1) == InsertAll(Rivalled(start, rivals, n), rivals(n));
        assert Rivalled(start, rivals, n + 2) == InsertAll(Rivalled(start, rivals, n + 1), rivals(n + 1));
        n := n + statements;
        if tried.Some? {
          return tried.value, n;
        }
      }
    }

    /**
     * Inserts a player under 20 random discriminators at most, and then under the least free one until that is
     * won. `rivals(n)` is what other writers insert before its statement number n; it makes n in all. The player gets
     * the first pick that was free when it was tried, or else the least discriminator that was free when scanned for.
     */
    method CreatePlayer(id: PlayerId, base: string, digest: Digest, now: Time, picks: seq<nat>, rivals: nat -> seq<Row>)
      returns (r: Result<Player, CreateError>, n: nat)
      requires Constrained(players) && |picks| == DISCRIMINATOR_RETRIES
      modifies this
      ensures Constrained(players) && Extends(old(players), players)
      ensures n > 0 && Created(old(players), players, rivals, n, id, if r.Success? then Some(r.value) else None)
      ensures Collided(old(players), rivals, picks, if n <= |picks| then n - 1 else |picks|, base)
      ensures r.Success? ==>
          && r.value == Player(base, r.value.discriminator, digest, now)
          && (if n <= |picks| then r.value.discriminator == picks[n - 1]
              else LeastFree(Rivalled(old(players), rivals, n - 1), base, r.value.discriminator))
      ensures r.Failure? ==> match r.error
          case UsernameExhausted => n > |picks| && Free(players, base) == {}
          case Refused(IdExists) => id in players
          case Refused(OutOfRange) => n <= |picks| && picks[n - 1] > MAX_DISCRIMINATOR
          case Refused(NameTaken) => false
    {
      hide InsertAll, Free, Taken, Insert, LeastFree, Collided;
      var early, m := CreateAtRandom(id, base, digest, now, picks, rivals);
      if early.Some? {
        r, n := early.value, m;
      } else {
        r, n := CreateFirstFree(old(players), id, base, digest, now, m, rivals);
      }
      CreatedKeeps(old(players), players, rivals, n, id, if r.Success? then Some(r.value) else None);
    }
  }
}
