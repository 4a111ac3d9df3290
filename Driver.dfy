/**
 * An abstract stand-in for the Doctrine connection and the PDO object it wraps.
 * The server's answers are configured up front, and every physical call that
 * matters to the connection manager is appended to a log.
 */
module Driver {
  import opened Db

  /** An exception raised inside the driver library, before the layer rewraps it. */
  datatype DriverError = DriverError(message: string, code: int)

  /** A physical call made on a link. */
  datatype Call = BeginTransaction | Commit | RollBack | Execute(sql: string) | Close

  /** How the server behind a link answers. */
  datatype Behaviour = Behaviour(
    reachable: bool,                   // answer to ping while the link is open
    beginOk: bool,                     // result of beginTransaction
    commitOk: bool,                    // result of commit
    rollBackOk: bool,                  // result of rollBack
    rejects: map<string, DriverError>, // SQL whose statement object cannot be built
    failures: map<string, DbError>)    // SQL whose execution throws

  /** One physical link to the database server. */
  class Link {
    var answers: Behaviour
    var open: bool
    var inTx: bool         // the driver's own "transaction active" flag
    var calls: seq<Call>   // physical calls made so far

    constructor (server: Behaviour)
      ensures answers == server && open && !inTx && calls == []
    {
      answers := server;
      open := true;
      inTx := false;
      calls := [];
    }

    /** Asks the server for a sign of life; a closed link is reopened first, as Doctrine does. */
    method Ping() returns (alive: bool)
      modifies this
      ensures alive == answers.reachable && answers == old(answers) && calls == old(calls)
      ensures open == (old(open) || alive) && inTx == (old(inTx) && (old(open) || !alive))
      ensures !alive ==> unchanged(this)
    {
      alive := answers.reachable;
      if !open && alive {
        open := true;
        inTx := false;
      }
    }

    method BeginTransaction() returns (ok: bool)
      modifies this
      ensures ok == answers.beginOk && answers == old(answers) && open == old(open)
      ensures inTx == (old(inTx) || ok)
      ensures calls == old(calls) + [Call.BeginTransaction]
    {
      ok := answers.beginOk;
      inTx := inTx || ok;
      calls := calls + [Call.BeginTransaction];
    }

    method Commit() returns (ok: bool)
      modifies this
      ensures ok == answers.commitOk && answers == old(answers) && open == old(open)
      ensures inTx == (old(inTx) && !ok)
      ensures calls == old(calls) + [Call.Commit]
    {
      ok := answers.commitOk;
      inTx := inTx && !ok;
      calls := calls + [Call.Commit];
    }

    method RollBack() returns (ok: bool)
      modifies this
      ensures ok == answers.rollBackOk && answers == old(answers) && open == old(open)
      ensures inTx == (old(inTx) && !ok)
      ensures calls == old(calls) + [Call.RollBack]
    {
      ok := answers.rollBackOk;
      inTx := inTx && !ok;
      calls := calls + [Call.RollBack];
    }

    method Execute(sql: string) returns (err: Option<DbError>)
      modifies this
      ensures err == (if sql in answers.failures then Some(answers.failures[sql]) else None)
      ensures answers == old(answers) && open == old(open) && inTx == old(inTx)
      ensures calls == old(calls) + [Call.Execute(sql)]
    {
      err := if sql in answers.failures then Some(answers.failures[sql]) else None;
      calls := calls + [Call.Execute(sql)];
    }

    method Close()
      modifies this
      ensures answers == old(answers) && !open && !inTx
      ensures calls == old(calls) + [Call.Close]
    {
      open := false;
      inTx := false;
      calls := calls + [Call.Close];
    }
  }
}
