/** Moving one tenant database between nodes: the worker's attempts, cut anywhere, against the agents' DDL.
    Tenants keep connecting and writing while the attempts run. */
module Migration {
  import opened Wrappers
  import opened Clusters
  import J = Jobs

  // ------------------------------------------------------------ one node's PostgreSQL

  /** The database under its physical name. session: some tenant connection is open. */
  datatype Db = Db(data: seq<nat>, tenantOwns: bool, publicConnect: bool, session: bool) {
    /** PUBLIC holds CONNECT by default, and an owner's CONNECT cannot be revoked. */
    predicate TenantMayConnect() {
      tenantOwns || publicConnect
    }
  }

  /** role: the tenant's login role exists. */
  datatype Pg = Pg(role: bool, db: Option<Db>)

  datatype Statement =
    | AlterOwner | RevokePublic | Terminate
    | CreateRole | CreateDb | Load(dump: seq<nat>)
    | DropDb | DropRole

  datatype PgError =
    | UndefinedDatabase | UndefinedRole | DuplicateRole | DuplicateDatabase | ObjectInUse | DependentObjects
    | ConnectionLost

  datatype Effect = Done(pg: Pg) | Raised(error: PgError)

  function Exec(pg: Pg, statement: Statement): Effect {
    match statement
    case AlterOwner =>
      if pg.db.None? then Raised(UndefinedDatabase) else Done(pg.(db := Some(pg.db.value.(tenantOwns := false))))
    case RevokePublic =>
      if pg.db.None? then Raised(UndefinedDatabase) else Done(pg.(db := Some(pg.db.value.(publicConnect := false))))
    case Terminate =>
      if pg.db.None? then Done(pg) else Done(pg.(db := Some(pg.db.value.(session := false))))
    case CreateRole =>
      if pg.role then Raised(DuplicateRole) else Done(pg.(role := true))
    case CreateDb =>
      if pg.db.Some? then Raised(DuplicateDatabase)
      else if !pg.role then Raised(UndefinedRole)
      else Done(pg.(db := Some(Db([], true, true, false))))
    case Load(dump) =>
      if pg.db.None? then Raised(UndefinedDatabase)
      else Done(pg.(db := Some(pg.db.value.(data := pg.db.value.data + dump))))
    case DropDb =>
      if pg.db.Some? && pg.db.value.session then Raised(ObjectInUse) else Done(pg.(db := None))
    case DropRole =>
      if pg.db.Some? then Raised(DependentObjects) else Done(pg.(role := false))
  }

  // ------------------------------------------------------------ the platform

  datatype Status = Running | Migrating | Failed

  /** The database row: its cluster and its status. */
  datatype Record = Record(cluster: nat, status: Status)

  /** Waiting: QUEUED or RETRYING */
  datatype JobState = Waiting | InProgress | Succeeded | GivenUp

  datatype Job = Job(target: nat, attempts: nat, state: JobState)

  const MaxAttempts: nat := J.DefaultMaxAttempts

  /** The worker inside execute_migrate_database: the row as loaded, the row as the session has changed it
      so far, and how many of the Script's instructions are behind it. */
  datatype Attempt = Attempt(job: nat, source: nat, loaded: Record, working: Record, dump: seq<nat>, pc: nat)

  /** written: every value a tenant was told is stored, in order. shared: the database's isolation level. */
  datatype World = World(nodes: seq<Pg>, clusters: seq<Cluster>, shared: bool, record: Record, jobs: seq<Job>,
                         attempt: Option<Attempt>, written: seq<nat>)

  function Serving(w: World): (node: nat)
    requires w.record.cluster < |w.clusters|
  {
    w.clusters[w.record.cluster].node
  }

  /** Where the handler stands: before the statements of quiesce (0), the dump (3), the statements of
      restore (4), the cutover (7), the statements of the source's drop (8), the dump's removal (11), the end. */
  const DumpAt: nat := 3
  const RestoreAt: nat := 4
  const CutoverAt: nat := 7
  const DropAt: nat := 8
  const CleanupAt: nat := 11
  const End: nat := 12

  const QuiesceScript := [AlterOwner, RevokePublic, Terminate]
  const DropScript := [Terminate, DropDb, DropRole]

  function RestoreScript(dump: seq<nat>): seq<Statement> {
    [CreateRole, CreateDb, Load(dump)]
  }

  predicate WellFormed(w: World) {
    && w.record.cluster < |w.clusters|
    && (forall c :: 0 <= c < |w.clusters| ==> w.clusters[c].node < |w.nodes|)
    && (forall j :: 0 <= j < |w.jobs| ==> w.jobs[j].target < |w.nodes|)
    && (w.attempt.Some? ==>
          && w.attempt.value.job < |w.jobs|
          && w.attempt.value.source < |w.nodes|
          && w.attempt.value.working.cluster < |w.clusters|
          && w.attempt.value.pc <= End)
  }

  function At(w: World, pc: nat): World
    requires w.attempt.Some?
  {
    w.(attempt := Some(w.attempt.value.(pc := pc)))
  }

  datatype Turn = Continues(w: World) | Raises(w: World)

  /** One statement on one node; only an existing database is forgiven, and then the rest of restore is skipped. */
  function OnNode(w: World, node: nat, statement: Statement): Turn
    requires w.attempt.Some? && node < |w.nodes|
  {
    match Exec(w.nodes[node], statement)
    case Done(pg) => Continues(At(w.(nodes := w.nodes[node := pg]), w.attempt.value.pc + 1))
    case Raised(DuplicateDatabase) => Continues(At(w, CutoverAt))
    case Raised(_) => Raises(w)
  }

  /** get_or_create_cluster_on_node, and the row pointed at the result. */
  function CutOver(w: World, target: nat): (after: World)
    requires w.attempt.Some?
  {
    var joined := Joined(w.clusters, target, w.shared);
    w.(clusters := joined.clusters,
       attempt := Some(w.attempt.value.(working := Record(joined.cluster, Running), pc := DropAt)))
  }

  function Advance(w: World): Turn
    requires WellFormed(w) && w.attempt.Some? && w.attempt.value.pc < End
  {
    var a := w.attempt.value;
    var target := w.jobs[a.job].target;
    if a.pc < DumpAt then OnNode(w, a.source, QuiesceScript[a.pc])
    else if a.pc == DumpAt then
      var db := w.nodes[a.source].db;
      if db.None? then Raises(w)
      else Continues(w.(attempt := Some(a.(dump := db.value.data, pc := RestoreAt))))
    else if a.pc < CutoverAt then OnNode(w, target, RestoreScript(a.dump)[a.pc - RestoreAt])
    else if a.pc == CutoverAt then Continues(CutOver(w, target))
    else if a.pc < CleanupAt then OnNode(w, a.source, DropScript[a.pc - DropAt])
    else Continues(At(w, End))
  }

  /** The session writes only the columns it changed. */
  function Commit(row: Record, loaded: Record, working: Record): Record {
    Record(if working.cluster != loaded.cluster then working.cluster else row.cluster,
           if working.status != loaded.status then working.status else row.status)
  }

  /** pg_restore stopped half-way leaves whatever it had got to. */
  function Torn(w: World, partial: seq<nat>): World
    requires WellFormed(w) && w.attempt.Some?
  {
    var target := w.jobs[w.attempt.value.job].target;
    if w.attempt.value.pc == RestoreAt + 2 && w.nodes[target].db.Some? then
      w.(nodes := w.nodes[target := w.nodes[target].(db := Some(w.nodes[target].db.value.(data := partial)))])
    else w
  }

  /** The handler raised: retry or give up, and commit what the session holds, without a rollback. */
  function Interrupted(w: World): World
    requires WellFormed(w) && w.attempt.Some?
  {
    var a := w.attempt.value;
    var job := w.jobs[a.job];
    if job.attempts >= MaxAttempts then
      w.(jobs := w.jobs[a.job := job.(state := GivenUp)],
         record := Commit(w.record, a.loaded, a.working.(status := Failed)), attempt := None)
    else
      w.(jobs := w.jobs[a.job := job.(state := Waiting)],
         record := Commit(w.record, a.loaded, a.working), attempt := None)
  }

  function Finished(w: World): World
    requires WellFormed(w) && w.attempt.Some?
  {
    var a := w.attempt.value;
    w.(jobs := w.jobs[a.job := w.jobs[a.job].(state := Succeeded)],
       record := Commit(w.record, a.loaded, a.working), attempt := None)
  }

  /** claim_next_job, and the head of the handler: nothing to do when the database is already there. */
  function Claimed(w: World, j: nat): World
    requires WellFormed(w) && w.attempt.None? && j < |w.jobs|
  {
    var job := w.jobs[j].(attempts := w.jobs[j].attempts + 1);
    if Serving(w) == job.target then w.(jobs := w.jobs[j := job.(state := Succeeded)])
    else w.(jobs := w.jobs[j := job.(state := InProgress)],
            attempt := Some(Attempt(j, Serving(w), w.record, w.record, [], 0)))
  }

  // ------------------------------------------------------------ events and runs

  /** Request: an administrator's call. Claim, Step and Break: the worker's, Break standing for any agent call
      that fails before, between or after its statements. The rest are the tenant's, who knows the row's host. */
  datatype Event =
    | Request(target: nat)
    | Claim(job: nat) | Step | Break(partial: seq<nat>)
    | Connect | Write(node: nat, value: nat) | Disconnect(node: nat)

  predicate Enabled(w: World, e: Event)
    requires WellFormed(w)
  {
    match e
    case Request(target) => target < |w.nodes| && w.record.status == Running && target != Serving(w)
    case Claim(j) => w.attempt.None? && j < |w.jobs| && w.jobs[j].state == Waiting
    case Step => w.attempt.Some?
    case Break(_) => w.attempt.Some? && w.attempt.value.pc < End
    case Connect =>
      var pg := w.nodes[Serving(w)];
      pg.role && pg.db.Some? && pg.db.value.TenantMayConnect()
    case Write(n, _) => n < |w.nodes| && w.nodes[n].db.Some? && w.nodes[n].db.value.session
    case Disconnect(n) => n < |w.nodes| && w.nodes[n].db.Some?
  }

  function WithDb(w: World, n: nat, db: Db): World
    requires n < |w.nodes|
  {
    w.(nodes := w.nodes[n := w.nodes[n].(db := Some(db))])
  }

  function Next(w: World, e: Event): World
    requires WellFormed(w)
  {
    if !Enabled(w, e) then w
    else
      match e
      case Request(target) => w.(record := w.record.(status := Migrating), jobs := w.jobs + [Job(target, 0, Waiting)])
      case Claim(j) => Claimed(w, j)
      case Step =>
        if w.attempt.value.pc == End then Finished(w)
        else
          var r := Advance(w);
          if r.Raises? then Interrupted(w) else r.w
      case Break(partial) => Interrupted(Torn(w, partial))
      case Connect => WithDb(w, Serving(w), w.nodes[Serving(w)].db.value.(session := true))
      case Write(n, value) =>
        WithDb(w, n, w.nodes[n].db.value.(data := w.nodes[n].db.value.data + [value]))
          .(written := w.written + [value])
      case Disconnect(n) => WithDb(w, n, w.nodes[n].db.value.(session := false))
  }

  // ------------------------------------------------------------ the invariant

  predicate Holds(w: World, node: nat) {
    node < |w.nodes| && w.nodes[node].db.Some? && w.nodes[node].db.value.data == w.written
  }

  /** No tenant is connected, and none can be. */
  predicate Sealed(pg: Pg) {
    pg.db.Some? ==> !pg.db.value.TenantMayConnect() && !pg.db.value.session
  }

  predicate Idle(pg: Pg) {
    pg.db.Some? ==> !pg.db.value.session
  }

  /** Before the cutover the row is untouched, the source serves and holds everything, and each instruction
      has left its mark. */
  predicate BeforeCutover(w: World, a: Attempt, target: nat)
    requires WellFormed(w) && a.source < |w.nodes| && target < |w.nodes|
  {
    && a.working == a.loaded
    && Holds(w, a.source)
    && (a.pc >= 1 ==> !w.nodes[a.source].db.value.tenantOwns)
    && (a.pc >= 2 ==> !w.nodes[a.source].db.value.publicConnect)
    && (a.pc >= 3 ==> Sealed(w.nodes[a.source]))
    && (a.pc >= 4 ==> a.dump == w.written)
    && (a.pc >= 5 ==> w.nodes[target].role)
    && (a.pc == 5 ==> w.nodes[target].db.None?)
    && (a.pc == 6 ==> w.nodes[target].db == Some(Db([], true, true, false)))
    && (a.pc == 7 ==> Holds(w, target) && w.nodes[target].db.value.TenantMayConnect())
  }

  /** After it the target holds everything, untouched by tenants until the row is committed. */
  predicate AfterCutover(w: World, a: Attempt, target: nat)
    requires WellFormed(w) && a.source < |w.nodes| && target < |w.nodes| && a.working.cluster < |w.clusters|
  {
    && a.working.status == Running
    && w.clusters[a.working.cluster].node == target
    && Holds(w, target)
    && w.nodes[target].db.value.TenantMayConnect()
    && Sealed(w.nodes[a.source])
    && (a.pc < 10 ==> Holds(w, a.source))
    && (a.pc >= 10 ==> w.nodes[a.source].db.None?)
    && (a.pc == 10 ==> w.nodes[a.source].role)
    && (a.pc >= 11 ==> !w.nodes[a.source].role)
  }

  predicate InAttempt(w: World)
    requires WellFormed(w) && w.attempt.Some?
  {
    var a := w.attempt.value;
    var target := w.jobs[a.job].target;
    && w.jobs[a.job].state == InProgress
    && a.source == Serving(w)
    && a.source != target
    && a.loaded.cluster == w.record.cluster
    && if a.pc <= CutoverAt then BeforeCutover(w, a, target) else AfterCutover(w, a, target)
  }

  predicate Inv(w: World) {
    && WellFormed(w)
    && (forall n :: 0 <= n < |w.nodes| ==> w.nodes[n].db.Some? ==> w.nodes[n].role)
    && (forall n :: 0 <= n < |w.nodes| && n != Serving(w) ==> Idle(w.nodes[n]))
    && (if w.attempt.Some? then InAttempt(w) else Holds(w, Serving(w)))
  }
}
