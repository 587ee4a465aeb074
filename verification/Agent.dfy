/** The agent: postgres_admin's DDL sequences and the endpoints around them, statement by statement.
    Every method is told how many more statements complete before the call breaks. */
module Agent {
  import opened Wrappers
  import opened Migration

  /** ran: the statements that took effect */
  datatype Reply = Reply(ran: nat, error: Option<PgError>)

  datatype ScriptResult = ScriptResult(pg: Pg, reply: Reply)

  function Script(pg: Pg, statements: seq<Statement>, left: nat): (r: ScriptResult)
    ensures r.reply.ran <= |statements| && r.reply.ran <= left
    ensures r.reply.error.None? ==> r.reply.ran == |statements|
    decreases |statements|
  {
    if statements == [] then ScriptResult(pg, Reply(0, None))
    else if left == 0 then ScriptResult(pg, Reply(0, Some(ConnectionLost)))
    else
      match Exec(pg, statements[0])
      case Raised(error) => ScriptResult(pg, Reply(0, Some(error)))
      case Done(next) =>
        var rest := Script(next, statements[1..], left - 1);
        ScriptResult(rest.pg, Reply(rest.reply.ran + 1, rest.reply.error))
  }

  /** The create and restore endpoints take a database that is already there for a success. */
  function Forgiven(r: ScriptResult): ScriptResult {
    if r.reply.error == Some(DuplicateDatabase) then r.(reply := r.reply.(error := None)) else r
  }

  /** One node's PostgreSQL behind its agent. */
  class PgServer {
    var role: bool
    var db: Option<Db>

    function State(): Pg
      reads this
    {
      Pg(role, db)
    }

    /** One SQL statement of the admin connection, or the loss of that connection. */
    method Sql(statement: Statement, left: nat) returns (error: Option<PgError>)
      modifies this
      ensures
        if left == 0 then error == Some(ConnectionLost) && State() == old(State())
        else
          match Exec(old(State()), statement)
          case Done(pg) => error == None && State() == pg
          case Raised(e) => error == Some(e) && State() == old(State())
    {
      if left == 0 {
        return Some(ConnectionLost);
      }
      match Exec(State(), statement) {
        case Raised(e) => return Some(e);
        case Done(pg) =>
          role, db := pg.role, pg.db;
          return None;
      }
    }

    method CreateDatabase(left: nat) returns (reply: Reply)
      modifies this
      ensures ScriptResult(State(), reply) == Script(old(State()), [CreateRole, CreateDb], left)
    {
      assert [CreateRole, CreateDb][1..] == [CreateDb] && [CreateDb][1..] == [];
      var error := Sql(CreateRole, left);
      if error.Some? {
        return Reply(0, error);
      }
      error := Sql(CreateDb, left - 1);
      return Reply(if error.Some? then 1 else 2, error);
    }

    method DropDatabase(left: nat) returns (reply: Reply)
      modifies this
      ensures ScriptResult(State(), reply) == Script(old(State()), DropScript, left)
    {
      assert DropScript[1..] == [DropDb, DropRole] && [DropDb, DropRole][1..] == [DropRole] && [DropRole][1..] == [];
      var error := Sql(Terminate, left);
      if error.Some? {
        return Reply(0, error);
      }
      error := Sql(DropDb, left - 1);
      if error.Some? {
        return Reply(1, error);
      }
      error := Sql(DropRole, left - 2);
      return Reply(if error.Some? then 2 else 3, error);
    }

    method QuiesceForMigration(left: nat) returns (reply: Reply)
      modifies this
      ensures ScriptResult(State(), reply) == Script(old(State()), QuiesceScript, left)
    {
      assert QuiesceScript[1..] == [RevokePublic, Terminate];
      assert [RevokePublic, Terminate][1..] == [Terminate] && [Terminate][1..] == [];
      var error := Sql(AlterOwner, left);
      if error.Some? {
        return Reply(0, error);
      }
      error := Sql(RevokePublic, left - 1);
      if error.Some? {
        return Reply(1, error);
      }
      error := Sql(Terminate, left - 2);
      return Reply(if error.Some? then 2 else 3, error);
    }

    method BackupEndpoint() returns (dump: Option<seq<nat>>)
      ensures dump == if db.Some? then Some(db.value.data) else None
    {
      return if db.Some? then Some(db.value.data) else None;
    }

    method ProvisionEndpoint(left: nat) returns (reply: Reply)
      modifies this
      ensures ScriptResult(State(), reply) == Forgiven(Script(old(State()), [CreateRole, CreateDb], left))
    {
      reply := CreateDatabase(left);
      if reply.error == Some(DuplicateDatabase) {
        return reply.(error := None);
      }
    }

    /** An existing database counts as restored, and nothing is loaded into it. */
    method RestoreEndpoint(dump: seq<nat>, left: nat) returns (reply: Reply)
      modifies this
      ensures ScriptResult(State(), reply) == Forgiven(Script(old(State()), RestoreScript(dump), left))
    {
      var before := State();
      reply := CreateDatabase(left);
      ScriptAppend(before, [CreateRole, CreateDb], [Load(dump)], left);
      if reply.error == Some(DuplicateDatabase) {
        return reply.(error := None);
      }
      if reply.error.Some? {
        return reply;
      }
      var error := Sql(Load(dump), left - 2);
      return Reply(if error.Some? then 2 else 3, error);
    }

    /** What a pg_restore that stopped half-way leaves behind. */
    method TearLoad(partial: seq<nat>)
      modifies this
      ensures State() == if old(db).None? then old(State())
                         else old(State()).(db := Some(old(db).value.(data := partial)))
    {
      if db.Some? {
        db := Some(db.value.(data := partial));
      }
    }
  }

  lemma {:induction false} ScriptAppend(pg: Pg, xs: seq<Statement>, ys: seq<Statement>, left: nat)
    ensures
      var first := Script(pg, xs, left);
      var whole := Script(pg, xs + ys, left);
      if first.reply.error.Some? then whole == first
      else
        var rest := Script(first.pg, ys, left - first.reply.ran);
        whole == ScriptResult(rest.pg, Reply(first.reply.ran + rest.reply.ran, rest.reply.error))
    decreases |xs|
  {
    if xs == [] {
      assert xs + ys == ys;
    } else if left > 0 && Exec(pg, xs[0]).Done? {
      assert (xs + ys)[1..] == xs[1..] + ys;
      ScriptAppend(Exec(pg, xs[0]).pg, xs[1..], ys, left - 1);
    }
  }

  // ------------------------------------------------------------ trying again

  /** A create or restore call, broken after so many statements if it gets that far. */
  datatype Call = Provision(left: nat) | Restore(dump: seq<nat>, left: nat)

  function Statements(call: Call): seq<Statement> {
    match call
    case Provision(_) => [CreateRole, CreateDb]
    case Restore(dump, _) => RestoreScript(dump)
  }

  function Answer(pg: Pg, call: Call): ScriptResult {
    Forgiven(Script(pg, Statements(call), call.left))
  }

  function AfterCalls(pg: Pg, calls: seq<Call>): Pg {
    if calls == [] then pg else Answer(AfterCalls(pg, calls[..|calls| - 1]), calls[|calls| - 1]).pg
  }

  lemma RoleRefuses(pg: Pg, call: Call)
    requires pg.role
    ensures Answer(pg, call).pg == pg && Answer(pg, call).reply.error.Some?
  {
    assert Statements(call)[0] == CreateRole;
  }

  /** On a node that has the role no create or restore call ever succeeds, or changes anything. */
  lemma {:induction false} RoleRefusesEveryCall(pg: Pg, calls: seq<Call>, next: Call)
    requires pg.role
    ensures AfterCalls(pg, calls) == pg && Answer(AfterCalls(pg, calls), next).reply.error.Some?
  {
    if calls == [] {
    } else {
      RoleRefusesEveryCall(pg, calls[..|calls| - 1], calls[|calls| - 1]);
    }
    RoleRefuses(pg, next);
  }

  /** A call on a clean node leaves the role behind as soon as one statement has run, and that is then for good. */
  lemma FirstCallLeavesRole(call: Call)
    ensures Answer(Pg(false, None), call).pg.role <==> call.left > 0
  {
    var statements, pg := Statements(call), Pg(true, None);
    assert statements[0] == CreateRole;
    if call.left > 0 {
      ScriptKeepsRole(pg, statements[1..], call.left - 1);
    }
  }

  lemma {:induction false} ScriptKeepsRole(pg: Pg, statements: seq<Statement>, left: nat)
    requires pg.role && DropRole !in statements
    ensures Script(pg, statements, left).pg.role
    decreases |statements|
  {
    if statements == [] || left == 0 || Exec(pg, statements[0]).Raised? {
    } else {
      ScriptKeepsRole(Exec(pg, statements[0]).pg, statements[1..], left - 1);
    }
  }

  /** Calling again, after a first call that broke or whose answer was lost, succeeds if and only if the first one
      ran nothing at all. */
  lemma RetryIsAcceptedIff(first: Call, retry: Call)
    requires retry.left >= |Statements(retry)|
    ensures Answer(Answer(Pg(false, None), first).pg, retry).reply.error.None? <==> first.left == 0
  {
    FirstCallLeavesRole(first);
    if first.left > 0 {
      RoleRefuses(Answer(Pg(false, None), first).pg, retry);
    } else {
      CleanNodeAccepts(retry);
    }
  }

  lemma CreationRuns(left: nat)
    requires left >= 2
    ensures Script(Pg(false, None), [CreateRole, CreateDb], left) ==
            ScriptResult(Pg(true, Some(Db([], true, true, false))), Reply(2, None))
  {
    assert [CreateRole, CreateDb][1..] == [CreateDb] && [CreateDb][1..] == [];
    assert Script(Pg(true, None), [CreateDb], left - 1) ==
           ScriptResult(Pg(true, Some(Db([], true, true, false))), Reply(1, None));
  }

  lemma CleanNodeAccepts(call: Call)
    requires call.left >= |Statements(call)|
    ensures Answer(Pg(false, None), call).reply.error.None?
  {
    CreationRuns(call.left);
    if call.Restore? {
      ScriptAppend(Pg(false, None), [CreateRole, CreateDb], [Load(call.dump)], call.left);
      assert RestoreScript(call.dump) == [CreateRole, CreateDb] + [Load(call.dump)];
    }
  }
}
