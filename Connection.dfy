/**
 * The DBAL connection manager: one link, a transaction nesting counter and the
 * bootstrap statements replayed after every (re)connect.
 */
module Connection {
  import opened Db
  import opened Driver
  import opened Statements
  import Transactions

  class DBAL {
    var link: Link?          // null until the first connect
    var txnumber: int        // nesting counter of logical transactions
    const stmts: seq<string> // bootstrap statements, in order

    /** The part of the connection the nesting logic works on. */
    function View(): Transactions.Session
      reads this, link
      requires link != null
    {
      Transactions.Session(txnumber, link.open, link.inTx, link.calls)
    }

    constructor (stmts: seq<string>)
      ensures this.stmts == stmts && link == null && txnumber == 0
    {
      this.stmts := stmts;
      link := null;
      txnumber := 0;
    }

    /**
     * Construction: stores the bootstrap statements and connects; an error in a
     * bootstrap statement is thrown from the constructor.
     */
    static method Open(stmts: seq<string>, server: Behaviour) returns (c: DBAL, err: Option<DbError>)
      ensures fresh(c) && c.stmts == stmts && c.link != null && fresh(c.link)
      ensures c.link.answers == server && c.link.open && !c.link.inTx && c.txnumber == 0
      ensures Replay(stmts, server) == Trace(c.link.calls, err)
    {
      c := new DBAL(stmts);
      err := c.Connect(server);
    }

    /**
     * Keeps a link that answers ping (a closed one is reopened by the ping, and
     * the counter is kept); otherwise installs a new link to `server`,
     * resets the counter and runs the bootstrap statements in order, stopping at
     * the first one that throws. The old link is dropped untouched.
     */
    method Connect(server: Behaviour) returns (err: Option<DbError>)
      modifies this`link, this`txnumber, link
      ensures old(link != null && link.answers.reachable) ==>
        link == old(link) && txnumber == old(txnumber) && err == None &&
        link.open && link.answers == old(link.answers) && link.calls == old(link.calls) &&
        link.inTx == old(link.inTx && link.open)
      ensures !old(link != null && link.answers.reachable) ==>
        link != null && fresh(link) && link.answers == server && link.open && !link.inTx &&
        txnumber == 0 && Replay(stmts, server) == Trace(link.calls, err)
      ensures old(link) != null && !old(link.answers.reachable) ==> unchanged(old(link))
    {
      if link != null {
        var alive := link.Ping();
        if alive {
          return None;
        }
      }
      var l := new Link(server);
      link := l;
      txnumber := 0;
      var i := 0;
      while i < |stmts|
        invariant 0 <= i <= |stmts|
        invariant link == l && fresh(l) && txnumber == 0
        invariant old(link) != null ==> unchanged(old(link))
        invariant l.answers == server && l.open && !l.inTx
        invariant Replay(stmts[..i], server) == Trace(l.calls, None)
      {
        var sql := stmts[i];
        assert stmts[..i + 1][..i] == stmts[..i];
        var st := Create(sql);
        if st.Failure? {
          err := Some(st.error);
          ReplayHaltsOnError(stmts, i + 1, server);
          return;
        }
        err := l.Execute(st.value.sql);
        if err.Some? {
          ReplayHaltsOnError(stmts, i + 1, server);
          return;
        }
        i := i + 1;
      }
      assert stmts[..i] == stmts;
      err := None;
    }

    /** `create`: a plain statement for SQL without `?`, a prepared one otherwise. */
    method Create(sql: string) returns (r: Result<Statement, DbError>)
      requires link != null
      ensures r == CreateStatement(sql, link.answers)
    {
      if sql in link.answers.rejects {
        return Failure(Rewrap(link.answers.rejects[sql]));
      }
      if '?' !in sql {
        return Success(Simple(sql));
      }
      return Success(Prepared(sql));
    }

    /** Asks the driver, not the counter, whether a transaction is running. */
    method InTransaction() returns (b: bool)
      requires link != null
      ensures b == link.inTx
      ensures Transactions.Consistent(View()) && link.open ==> (b <==> txnumber > 0)
    {
      b := link.inTx;
    }

    method Begin() returns (err: Option<DbError>)
      requires link != null
      modifies this`txnumber, link
      ensures link == old(link) && link.answers == old(link.answers)
      ensures Transactions.Reply(View(), err) == Transactions.Begin(old(View()), old(link.answers.beginOk))
    {
      if txnumber == 0 {
        var ok := link.BeginTransaction();
        if !ok {
          return Some(DbError(Transactions.BeginFailed, 0));
        }
      }
      txnumber := txnumber + 1;
      return None;
    }

    method Commit() returns (err: Option<DbError>)
      requires link != null
      modifies this`txnumber, link
      ensures link == old(link) && link.answers == old(link.answers)
      ensures Transactions.Reply(View(), err) == Transactions.Commit(old(View()), old(link.answers.commitOk))
    {
      if txnumber == 1 {
        var ok := link.Commit();
        if !ok {
          return Some(DbError(Transactions.CommitFailed, 0));
        }
      }
      txnumber := txnumber - 1;
      return None;
    }

    method Rollback() returns (err: Option<DbError>)
      requires link != null
      modifies this`txnumber, link
      ensures link == old(link) && link.answers == old(link.answers)
      ensures Transactions.Reply(View(), err) == Transactions.Rollback(old(View()), old(link.answers.rollBackOk))
    {
      if txnumber == 1 {
        var ok := link.RollBack();
        if !ok {
          return Some(DbError(Transactions.RollbackFailed, 0));
        }
      }
      txnumber := txnumber - 1;
      return None;
    }

    method Close() returns (err: Option<DbError>)
      requires link != null
      modifies this`txnumber, link
      ensures link == old(link) && link.answers == old(link.answers)
      ensures Transactions.Reply(View(), err) == Transactions.Close(old(View()), old(link.answers.rollBackOk))
    {
      var active := InTransaction();
      if active {
        err := Rollback();
        if err.Some? {
          return;
        }
      }
      link.Close();
      err := None;
    }
  }

  /** A client: nested begin/commit on a fresh connection, then close and reconnect. */
  method NestedThenReconnect(stmts: seq<string>, server: Behaviour)
    requires server.beginOk && server.commitOk && server.rollBackOk
  {
    var c, err := DBAL.Open(stmts, server);
    var before := c.link.calls;
    var e := c.Begin();      assert c.txnumber == 1 && e == None;
    e := c.Begin();          assert c.txnumber == 2 && e == None;
    e := c.Commit();         assert c.txnumber == 1 && e == None;
    var inTx := c.InTransaction();
    assert inTx;
    e := c.Commit();         assert c.txnumber == 0 && e == None;
    assert c.link.calls == before + [Call.BeginTransaction, Call.Commit];
    e := c.Begin();          assert c.txnumber == 1 && c.link.inTx;
    e := c.Close();
    assert e == None && c.txnumber == 0 && !c.link.open;
    assert c.link.calls == before + [Call.BeginTransaction, Call.Commit, Call.BeginTransaction, Call.RollBack, Call.Close];
    var previous := c.link;
    err := c.Connect(server);
    assert c.txnumber == 0 && c.link.open;
    assert server.reachable ==> c.link == previous;
    assert !server.reachable ==> c.link != previous;
  }

  /**
   * A client: closing at counter 2 and reconnecting to a server that answers
   * ping reopens the same link without replaying the bootstrap statements, and
   * the counter stays at 1 although no physical transaction is open.
   */
  method CloseNestedThenReconnect(stmts: seq<string>, server: Behaviour)
    requires server.beginOk && server.reachable
  {
    var c, err := DBAL.Open(stmts, server);
    var e := c.Begin();
    e := c.Begin();          assert c.txnumber == 2 && c.link.inTx;
    e := c.Close();          assert e == None && c.txnumber == 1 && !c.link.open;
    var previous, calls := c.link, c.link.calls;
    err := c.Connect(server);
    assert c.link == previous && c.link.calls == calls && c.link.open;
    assert c.txnumber == 1 && !c.link.inTx;
  }

  /** A client: connecting again while the link answers ping replays nothing. */
  method ReconnectWhileAlive(stmts: seq<string>, server: Behaviour)
    requires server.reachable
  {
    var c, err := DBAL.Open(stmts, server);
    var first, calls := c.link, c.link.calls;
    err := c.Connect(server);
    assert c.link == first && c.link.calls == calls && err == None;
  }
}
