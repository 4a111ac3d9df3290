/**
 * The nesting counter of the connection manager as a state machine: only the
 * outermost begin and the matching outermost commit or rollback reach the
 * driver; every other call just moves the counter.
 */
module Transactions {
  import opened Db
  import opened Driver

  const BeginFailed := "Unable to start new transaction"
  const CommitFailed := "Failed to commit transaction"
  const RollbackFailed := "Failed to roll back transaction"

  /**
   * What the nesting logic sees of a connection: the counter, whether the link
   * is open, the driver's own transaction flag, and the physical calls made.
   */
  datatype Session = Session(depth: int, open: bool, active: bool, log: seq<Call>)

  /** The session after a call, and the exception the call threw, if any. */
  datatype Reply = Reply(session: Session, error: Option<DbError>)

  /** On an open link the driver's transaction flag agrees with the counter. */
  predicate Consistent(s: Session)
  {
    s.open ==> (s.active <==> s.depth > 0)
  }

  /** `begin`: a physical begin only at counter 0; the counter moves only on success. */
  function Begin(s: Session, accepted: bool): (r: Reply)
    ensures r.session.log == s.log + (if s.depth == 0 then [Call.BeginTransaction] else [])
    ensures r.error.Some? <==> s.depth == 0 && !accepted
    ensures r.error.Some? ==>
      r.error.value == DbError(BeginFailed, 0) && r.session.depth == s.depth && r.session.active == s.active
    ensures r.error.None? ==> r.session.depth == s.depth + 1 && r.session.active == (s.active || s.depth == 0)
    ensures r.session.open == s.open
    ensures Consistent(s) ==> Consistent(r.session)
  {
    if s.depth == 0 then
      var log := s.log + [Call.BeginTransaction];
      if accepted then Reply(s.(depth := 1, active := true, log := log), None)
      else Reply(s.(log := log), Some(DbError(BeginFailed, 0)))
    else
      Reply(s.(depth := s.depth + 1), None)
  }

  /** `commit`: a physical commit only at counter 1; no guard against going below 0. */
  function Commit(s: Session, accepted: bool): (r: Reply)
    ensures r.session.log == s.log + (if s.depth == 1 then [Call.Commit] else [])
    ensures r.error.Some? <==> s.depth == 1 && !accepted
    ensures r.error.Some? ==>
      r.error.value == DbError(CommitFailed, 0) && r.session.depth == s.depth && r.session.active == s.active
    ensures r.error.None? ==> r.session.depth == s.depth - 1 && r.session.active == (s.active && s.depth != 1)
    ensures r.session.open == s.open
    ensures Consistent(s) ==> Consistent(r.session)
  {
    if s.depth == 1 then
      var log := s.log + [Call.Commit];
      if accepted then Reply(s.(depth := 0, active := false, log := log), None)
      else Reply(s.(log := log), Some(DbError(CommitFailed, 0)))
    else
      Reply(s.(depth := s.depth - 1), None)
  }

  /** `rollback`: a physical rollback only at counter 1; no guard against going below 0. */
  function Rollback(s: Session, accepted: bool): (r: Reply)
    ensures r.session.log == s.log + (if s.depth == 1 then [Call.RollBack] else [])
    ensures r.error.Some? <==> s.depth == 1 && !accepted
    ensures r.error.Some? ==>
      r.error.value == DbError(RollbackFailed, 0) && r.session.depth == s.depth && r.session.active == s.active
    ensures r.error.None? ==> r.session.depth == s.depth - 1 && r.session.active == (s.active && s.depth != 1)
    ensures r.session.open == s.open
    ensures Consistent(s) ==> Consistent(r.session)
  {
    if s.depth == 1 then
      var log := s.log + [Call.RollBack];
      if accepted then Reply(s.(depth := 0, active := false, log := log), None)
      else Reply(s.(log := log), Some(DbError(RollbackFailed, 0)))
    else
      Reply(s.(depth := s.depth - 1), None)
  }

  /**
   * `close`: one `rollback` when the DRIVER reports an open transaction (the
   * counter is not consulted), then the link is closed; a failed rollback
   * aborts before the link is closed.
   */
  function Close(s: Session, accepted: bool): (r: Reply)
    ensures r.error.Some? <==> s.active && s.depth == 1 && !accepted
    ensures r.error.Some? ==> r == Rollback(s, accepted)
    ensures r.error.None? ==> !r.session.open && !r.session.active
    ensures r.error.None? ==>
      r.session.log == s.log + (if s.active && s.depth == 1 then [Call.RollBack] else []) + [Call.Close]
    ensures r.session.depth == if s.active && r.error.None? then s.depth - 1 else s.depth
    ensures Consistent(s) ==> Consistent(r.session)
  {
    var rolled := if s.active then Rollback(s, accepted) else Reply(s, None);
    if rolled.error.Some? then rolled
    else
      var t := rolled.session;
      Reply(t.(open := false, active := false, log := t.log + [Call.Close]), None)
  }

  /** A transaction call made by a client of the connection. */
  datatype Op = BeginOp | CommitOp | RollbackOp

  function Apply(s: Session, op: Op, server: Behaviour): Reply
  {
    match op
    case BeginOp => Begin(s, server.beginOk)
    case CommitOp => Commit(s, server.commitOk)
    case RollbackOp => Rollback(s, server.rollBackOk)
  }

  /** Makes the calls in order; the first exception ends the run. */
  function Run(s: Session, ops: seq<Op>, server: Behaviour): Reply
    decreases |ops|
  {
    if ops == [] then Reply(s, None)
    else
      var r := Apply(s, ops[0], server);
      if r.error.Some? then r else Run(r.session, ops[1..], server)
  }

  /** How a call moves the counter when it succeeds. */
  function Delta(op: Op): int
  {
    if op == BeginOp then 1 else -1
  }

  function Net(ops: seq<Op>): int
    decreases |ops|
  {
    if ops == [] then 0 else Delta(ops[0]) + Net(ops[1..])
  }

  /** Starting at depth d, the counter never drops below `floor`. */
  predicate Above(d: int, ops: seq<Op>, floor: int)
    decreases |ops|
  {
    d >= floor && (ops != [] ==> Above(d + Delta(ops[0]), ops[1..], floor))
  }

  /** Starting at depth d, no call meets the counter value at which it would reach the driver. */
  predicate Logical(d: int, ops: seq<Op>)
    decreases |ops|
  {
    ops == [] ||
    ((if ops[0] == BeginOp then d != 0 else d != 1) && Logical(d + Delta(ops[0]), ops[1..]))
  }

  lemma {:induction false} RunAppend(s: Session, xs: seq<Op>, ys: seq<Op>, server: Behaviour)
    ensures Run(s, xs + ys, server) ==
      var r := Run(s, xs, server); if r.error.Some? then r else Run(r.session, ys, server)
    decreases |xs|
  {
    if xs != [] {
      assert (xs + ys)[0] == xs[0] && (xs + ys)[1..] == xs[1..] + ys;
      var r := Apply(s, xs[0], server);
      if r.error.None? {
        RunAppend(r.session, xs[1..], ys, server);
      }
    } else {
      assert xs + ys == ys;
    }
  }

  /** Any sequence of transaction calls, failing or not, keeps the driver flag and the counter in agreement. */
  lemma {:induction false} RunKeepsConsistent(s: Session, ops: seq<Op>, server: Behaviour)
    requires Consistent(s)
    ensures Consistent(Run(s, ops, server).session)
    decreases |ops|
  {
    if ops != [] {
      var r := Apply(s, ops[0], server);
      if r.error.None? {
        RunKeepsConsistent(r.session, ops[1..], server);
      }
    }
  }

  /** Calls that never meet their physical counter value cannot fail and only move the counter. */
  lemma {:induction false} LogicalRunIsSilent(s: Session, ops: seq<Op>, server: Behaviour)
    requires Logical(s.depth, ops)
    ensures Run(s, ops, server) == Reply(s.(depth := s.depth + Net(ops)), None)
    decreases |ops|
  {
    if ops != [] {
      var r := Apply(s, ops[0], server);
      assert r == Reply(s.(depth := s.depth + Delta(ops[0])), None);
      LogicalRunIsSilent(r.session, ops[1..], server);
    }
  }

  lemma {:induction false} AboveOneIsLogical(d: int, ops: seq<Op>)
    requires Above(d, ops, 1)
    ensures Logical(d, ops)
    decreases |ops|
  {
    if ops != [] {
      AboveOneIsLogical(d + Delta(ops[0]), ops[1..]);
    }
  }

  /**
   * Inside an open transaction (counter at least 1 throughout), begin, commit
   * and rollback never reach the driver, cannot fail, and only move the counter.
   */
  lemma NestedCallsAreSilent(s: Session, ops: seq<Op>, server: Behaviour)
    requires Above(s.depth, ops, 1)
    ensures Run(s, ops, server) == Reply(s.(depth := s.depth + Net(ops)), None)
  {
    AboveOneIsLogical(s.depth, ops);
    LogicalRunIsSilent(s, ops, server);
  }

  /**
   * An outermost begin ... commit (or rollback) pair from counter 0, with any
   * properly nested calls inside, makes exactly one physical begin and one
   * physical commit (or rollback) and returns the counter to 0.
   */
  lemma OutermostPair(s: Session, inner: seq<Op>, last: Op, server: Behaviour)
    requires s.depth == 0 && last != BeginOp
    requires Above(1, inner, 1) && Net(inner) == 0
    requires server.beginOk
    requires last == CommitOp ==> server.commitOk
    requires last == RollbackOp ==> server.rollBackOk
    ensures Run(s, [BeginOp] + inner + [last], server) ==
      Reply(s.(active := false,
               log := s.log + [Call.BeginTransaction, if last == CommitOp then Call.Commit else Call.RollBack]),
            None)
  {
    var started := s.(depth := 1, active := true, log := s.log + [Call.BeginTransaction]);
    RunAppend(s, [BeginOp], inner, server);
    RunAppend(s, [BeginOp] + inner, [last], server);
    NestedCallsAreSilent(started, inner, server);
  }

  /** From counter 0, begin; begin; commit; commit passes the counter through 0, 1, 2, 1, 0 with one physical begin and one physical commit. */
  lemma NestedScenario(s: Session, server: Behaviour)
    requires s.depth == 0 && server.beginOk && server.commitOk
    ensures Run(s, [BeginOp], server).session.depth == 1
    ensures Run(s, [BeginOp, BeginOp], server).session.depth == 2
    ensures Run(s, [BeginOp, BeginOp, CommitOp], server).session.depth == 1
    ensures Run(s, [BeginOp, BeginOp, CommitOp, CommitOp], server) ==
      Reply(s.(active := false, log := s.log + [Call.BeginTransaction, Call.Commit]), None)
  {
    OutermostPair(s, [BeginOp, CommitOp], CommitOp, server);
    assert [BeginOp] + [BeginOp, CommitOp] + [CommitOp] == [BeginOp, BeginOp, CommitOp, CommitOp];
  }

  /**
   * A commit without a begin drives the counter to -1, after which a
   * begin ... commit pair makes no physical call at all, whatever the driver answers.
   */
  lemma StrayCommitSkipsNextTransaction(s: Session, server: Behaviour)
    requires s.depth == 0
    ensures Run(s, [CommitOp, BeginOp, CommitOp], server) == Reply(s.(depth := -1), None)
  {
    LogicalRunIsSilent(s, [CommitOp, BeginOp, CommitOp], server);
  }

  /** With the counter at 2, `close` only decrements it: no physical rollback precedes the close. */
  lemma CloseAtDepthTwo(s: Session, accepted: bool)
    requires s.depth == 2 && s.active
    ensures Close(s, accepted) ==
      Reply(s.(depth := 1, open := false, active := false, log := s.log + [Call.Close]), None)
  {
  }
}
