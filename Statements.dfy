/**
 * Statement creation and the replay of bootstrap statements after a (re)connect.
 */
module Statements {
  import opened Db
  import opened Driver

  /** A statement handle: a plain one, or one that binds values to `?` placeholders. */
  datatype Statement = Simple(sql: string) | Prepared(sql: string)

  /** The physical calls made while running some statements, and the error that stopped them, if any. */
  datatype Trace = Trace(calls: seq<Call>, error: Option<DbError>)

  /** The single point where a driver exception becomes the layer's own exception. */
  function Rewrap(e: DriverError): DbError
  {
    DbError(e.message, e.code)
  }

  /**
   * Chooses the statement kind from the SQL text: a plain statement when it has
   * no `?`, a prepared one otherwise; a failure while building it is rethrown
   * as the layer's exception with the same message and code.
   */
  function CreateStatement(sql: string, server: Behaviour): (r: Result<Statement, DbError>)
    ensures r.Failure? <==> sql in server.rejects
    ensures r.Failure? ==>
      r.error.message == server.rejects[sql].message && r.error.code == server.rejects[sql].code
    ensures r.Success? ==> r.value.sql == sql
    ensures r.Success? ==> (r.value.Simple? <==> forall i :: 0 <= i < |sql| ==> sql[i] != '?')
  {
    if sql in server.rejects then Failure(Rewrap(server.rejects[sql]))
    else if '?' !in sql then Success(Simple(sql))
    else Success(Prepared(sql))
  }

  /** Creates, executes and finishes one bootstrap statement. */
  function Perform(sql: string, server: Behaviour): (r: Trace)
    ensures r.calls == if sql in server.rejects then [] else [Call.Execute(sql)]
    ensures r.error.None? <==> sql !in server.rejects && sql !in server.failures
    ensures sql in server.rejects ==> r.error == Some(Rewrap(server.rejects[sql]))
    ensures sql !in server.rejects && sql in server.failures ==> r.error == Some(server.failures[sql])
  {
    match CreateStatement(sql, server)
    case Failure(e) => Trace([], Some(e))
    case Success(st) =>
      Trace([Call.Execute(st.sql)], if st.sql in server.failures then Some(server.failures[st.sql]) else None)
  }

  /** Runs the statements in list order and stops at the first one that fails. */
  function Replay(stmts: seq<string>, server: Behaviour): Trace
    decreases |stmts|
  {
    if stmts == [] then Trace([], None)
    else
      var before := Replay(stmts[..|stmts| - 1], server);
      if before.error.Some? then before
      else
        var last := Perform(stmts[|stmts| - 1], server);
        Trace(before.calls + last.calls, last.error)
  }

  /** The calls of executing every statement once, in list order. */
  function Executions(stmts: seq<string>): (r: seq<Call>)
    ensures |r| == |stmts|
    ensures forall i :: 0 <= i < |stmts| ==> r[i] == Call.Execute(stmts[i])
  {
    seq(|stmts|, i requires 0 <= i < |stmts| => Call.Execute(stmts[i]))
  }

  /** Once a prefix of the list has failed, the rest of the list is never run. */
  lemma {:induction false} ReplayHaltsOnError(stmts: seq<string>, k: nat, server: Behaviour)
    requires k <= |stmts|
    requires Replay(stmts[..k], server).error.Some?
    ensures Replay(stmts, server) == Replay(stmts[..k], server)
    decreases |stmts| - k
  {
    if k < |stmts| {
      var longer := stmts[..k + 1];
      assert longer[..|longer| - 1] == stmts[..k];
      ReplayHaltsOnError(stmts, k + 1, server);
    } else {
      assert stmts[..k] == stmts;
    }
  }

  /**
   * The replay succeeds exactly when every statement can be built and executed,
   * and then it executes every statement once, in list order.
   */
  lemma {:induction false} ReplayAllSucceed(stmts: seq<string>, server: Behaviour)
    ensures Replay(stmts, server).error.None? <==>
      forall i :: 0 <= i < |stmts| ==> Perform(stmts[i], server).error.None?
    ensures Replay(stmts, server).error.None? ==> Replay(stmts, server).calls == Executions(stmts)
    decreases |stmts|
  {
    if stmts != [] {
      var init := stmts[..|stmts| - 1];
      ReplayAllSucceed(init, server);
      assert forall i :: 0 <= i < |init| ==> init[i] == stmts[i];
      if Replay(init, server).error.None? {
        assert Executions(init) + [Call.Execute(stmts[|stmts| - 1])] == Executions(stmts);
      }
    }
  }

  /**
   * A failed replay was stopped by its first failing statement: every statement
   * before it was executed in order, and its error is the one reported.
   */
  lemma {:induction false} ReplayStopsAtFirstFailure(stmts: seq<string>, server: Behaviour)
    requires Replay(stmts, server).error.Some?
    ensures exists k :: (0 <= k < |stmts|
                         && (forall i :: 0 <= i < k ==> Perform(stmts[i], server).error.None?)
                         && Perform(stmts[k], server).error == Replay(stmts, server).error
                         && Replay(stmts, server).calls == Executions(stmts[..k]) + Perform(stmts[k], server).calls)
    decreases |stmts|
  {
    var init := stmts[..|stmts| - 1];
    assert forall i :: 0 <= i < |init| ==> init[i] == stmts[i];
    if Replay(init, server).error.Some? {
      ReplayStopsAtFirstFailure(init, server);
      var k :| (0 <= k < |init|
                && (forall i :: 0 <= i < k ==> Perform(init[i], server).error.None?)
                && Perform(init[k], server).error == Replay(init, server).error
                && Replay(init, server).calls == Executions(init[..k]) + Perform(init[k], server).calls);
      assert init[..k] == stmts[..k];
    } else {
      var k := |stmts| - 1;
      ReplayAllSucceed(init, server);
      assert init == stmts[..k];
    }
  }
}
