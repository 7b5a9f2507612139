/**
 * The connection pool as the handlers see it: `pool.connect()` checks a
 * connection out, `client.query(...)` runs one statement on it and
 * `client.release()` gives it back. The pool records every step in a
 * trace, together with the database's answer to each statement; what the
 * database answers, and whether a connection can be had at all, is chosen
 * freely (non-deterministically) on every call.
 */
module Pool {
  import opened Wrappers
  import opened Faults

  /** A result row: column name to the column's value, as text. */
  type Row = map<string, string>

  /** A bound parameter of a statement; `None` is JavaScript's `undefined`. */
  type Param = Option<string>

  /** What the database answers to one statement. */
  datatype Reply = Rows(rows: seq<Row>) | Failed(error: DbError)

  datatype Event =
    | Acquire
    | Exec(statement: Option<string>, params: seq<Param>, reply: Reply)
    | Release

  /**
   * Replaying `t` with `held` connections checked out: the number still
   * checked out at the end, or `None` when a statement is run or a
   * connection released while none is held.
   */
  function Outstanding(t: seq<Event>, held: nat): Option<nat>
  {
    if t == [] then Some(held)
    else
      match t[0]
      case Acquire => Outstanding(t[1..], held + 1)
      case Exec(_, _, _) => if held == 0 then None else Outstanding(t[1..], held)
      case Release => if held == 0 then None else Outstanding(t[1..], held - 1)
  }

  function Acquires(t: seq<Event>): nat
  {
    if t == [] then 0 else (if t[0] == Acquire then 1 else 0) + Acquires(t[1..])
  }

  function Releases(t: seq<Event>): nat
  {
    if t == [] then 0 else (if t[0] == Release then 1 else 0) + Releases(t[1..])
  }

  /**
   * The events of one request: nothing at all, or one connection acquired
   * first, released last, and used only for statements in between.
   */
  ghost predicate Session(e: seq<Event>)
  {
    e == [] ||
    (|e| >= 2 && e[0] == Acquire && e[|e| - 1] == Release &&
     forall i :: 0 < i < |e| - 1 ==> e[i].Exec?)
  }

  /** Replaying a concatenation is replaying its parts one after the other. */
  lemma {:induction false} OutstandingAppend(a: seq<Event>, b: seq<Event>, held: nat)
    ensures Outstanding(a + b, held) ==
      match Outstanding(a, held)
      case None => None
      case Some(h) => Outstanding(b, h)
  {
    if a != [] {
      assert (a + b)[0] == a[0];
      assert (a + b)[1..] == a[1..] + b;
      match a[0]
      case Acquire => OutstandingAppend(a[1..], b, held + 1);
      case Exec(_, _, _) => if held > 0 { OutstandingAppend(a[1..], b, held); }
      case Release => if held > 0 { OutstandingAppend(a[1..], b, held - 1); }
    } else {
      assert a + b == b;
    }
  }

  /** A trace that replays cleanly has as many connections out as were acquired and not released. */
  lemma {:induction false} OutstandingCounts(t: seq<Event>, held: nat)
    requires Outstanding(t, held).Some?
    ensures held + Acquires(t) == Outstanding(t, held).value + Releases(t)
  {
    if t != [] {
      match t[0]
      case Acquire => OutstandingCounts(t[1..], held + 1);
      case Exec(_, _, _) => OutstandingCounts(t[1..], held);
      case Release => OutstandingCounts(t[1..], held - 1);
    }
  }

  /** Statements alone neither take nor give back a connection. */
  lemma {:induction false} StatementsKeepHeld(m: seq<Event>, held: nat)
    requires held > 0
    requires forall i :: 0 <= i < |m| ==> m[i].Exec?
    ensures Outstanding(m, held) == Some(held)
    ensures Acquires(m) == 0 && Releases(m) == 0
  {
    if m != [] {
      assert m[0].Exec?;
      StatementsKeepHeld(m[1..], held);
    }
  }

  /**
   * A request's session leaves the number of checked-out connections as it
   * found it, and a non-empty session acquires exactly one connection and
   * releases it exactly once.
   */
  lemma SessionBalanced(e: seq<Event>, held: nat)
    requires Session(e)
    ensures Outstanding(e, held) == Some(held)
    ensures Acquires(e) == Releases(e) == if e == [] then 0 else 1
  {
    if e != [] {
      var m := e[1..|e| - 1];
      StatementsKeepHeld(m, held + 1);
      assert e == [Acquire] + (m + [Release]);
      OutstandingAppend(m, [Release], held + 1);
      assert Acquires([Release]) == 0;
      AcquiresAppend(m, [Release]);
      ReleasesAppend(m, [Release]);
      assert Acquires(e) == 1 + Acquires(m + [Release]);
      assert Releases(e) == Releases(m + [Release]);
    }
  }

  lemma {:induction false} AcquiresAppend(a: seq<Event>, b: seq<Event>)
    ensures Acquires(a + b) == Acquires(a) + Acquires(b)
  {
    if a == [] {
      assert a + b == b;
    } else {
      assert (a + b)[1..] == a[1..] + b;
      AcquiresAppend(a[1..], b);
    }
  }

  lemma {:induction false} ReleasesAppend(a: seq<Event>, b: seq<Event>)
    ensures Releases(a + b) == Releases(a) + Releases(b)
  {
    if a == [] {
      assert a + b == b;
    } else {
      assert (a + b)[1..] == a[1..] + b;
      ReleasesAppend(a[1..], b);
    }
  }

  /** The shared `pg.Pool`, seen through the trace of what was done with it. */
  class ConnectionPool {
    /** Every acquire, statement and release so far, oldest first. */
    var trace: seq<Event>
    /** Connections currently checked out. */
    var held: nat

    ghost predicate Valid()
      reads this
    {
      Outstanding(trace, 0) == Some(held)
    }

    constructor ()
      ensures Valid() && trace == [] && held == 0
    {
      trace := [];
      held := 0;
    }

    /** `pool.connect()`: either a connection is checked out or the driver's error is thrown. */
    method Connect() returns (r: Result<(), DbError>)
      requires Valid()
      modifies this
      ensures Valid()
      ensures r.Ok? ==> trace == old(trace) + [Acquire] && held == old(held) + 1
      ensures r.Err? ==> trace == old(trace) && held == old(held)
    {
      r := *;
      if r.Ok? {
        OutstandingAppend(trace, [Acquire], 0);
        trace := trace + [Acquire];
        held := held + 1;
      }
    }

    /** `client.query(statement, params)` on a checked-out connection; the reply is the database's. */
    method Query(statement: Option<string>, params: seq<Param>) returns (reply: Reply)
      requires Valid() && held > 0
      modifies this
      ensures Valid()
      ensures trace == old(trace) + [Exec(statement, params, reply)] && held == old(held)
    {
      reply := *;
      OutstandingAppend(trace, [Exec(statement, params, reply)], 0);
      trace := trace + [Exec(statement, params, reply)];
    }

    /** `client.release()`: the connection goes back to the pool. */
    method Release()
      requires Valid() && held > 0
      modifies this
      ensures Valid()
      ensures trace == old(trace) + [Event.Release] && held == old(held) - 1
    {
      OutstandingAppend(trace, [Event.Release], 0);
      trace := trace + [Event.Release];
      held := held - 1;
    }
  }

  /** A valid pool holds exactly the connections its trace acquired and did not release. */
  lemma ValidPoolBalance(p: ConnectionPool)
    requires p.Valid()
    ensures Acquires(p.trace) == p.held + Releases(p.trace)
  {
    OutstandingCounts(p.trace, 0);
  }
}
