/**
 The session guards: every ORM statement passes `GuardOrmExecute`, every flush passes
 `GuardFlush`. Each method works in place, as the listeners do, and is tied to a
 specification function on values.
 */
module TenantGuard {
  import opened Wrappers
  import opened TenantQuery

  datatype GuardError = NoTenantContext | UnscopedTableAccess | ForeignInsert | ForeignWrite

  /** Bulk UPDATE and DELETE name one target, through its class (`mapped`) or as a bare table. */
  datatype Statement =
    | SelectStmt(query: Query)
    | UpdateStmt(table: Table, mapped: bool, where: Cond, assign: Row -> Row)
    | DeleteStmt(table: Table, mapped: bool, where: Cond)
    | OtherStmt

  // --- Statements ---

  /** The mapped classes the statement exposes at its top level: its column list, or its DML target. */
  function TopMappers(s: Statement): set<Table> {
    match s
    case SelectStmt(q) => ColumnEntities(q.from, q.columns)
    case UpdateStmt(table, mapped, _, _) => if mapped then {table} else {}
    case DeleteStmt(table, mapped, _) => if mapped then {table} else {}
    case OtherStmt => {}
  }

  function ColumnEntities(f: From, columns: set<nat>): set<Table> {
    match f
    case Scan(source) => if source.Entity? && 0 in columns then {source.table} else {}
    case Join(left, right, _, _) =>
      ColumnEntities(left, columns) + if right.Entity? && Width(left) in columns then {right.table} else {}
  }

  function StatementTables(s: Statement): set<Table> {
    match s
    case SelectStmt(q) => QueryTables(q)
    case UpdateStmt(table, _, where, _) => {table} + CondTables(where)
    case DeleteStmt(table, _, where) => {table} + CondTables(where)
    case OtherStmt => {}
  }

  /** Every scoped table of the statement is reached through its entity. */
  predicate StatementViaEntities(s: Statement, scoped: set<Table>) {
    match s
    case SelectStmt(q) => ViaEntities(q, scoped)
    case UpdateStmt(table, mapped, where, _) => (mapped || table !in scoped) && ViaEntitiesCond(where, scoped)
    case DeleteStmt(table, mapped, where) => (mapped || table !in scoped) && ViaEntitiesCond(where, scoped)
    case OtherStmt => true
  }

  function WithCriteria(s: Statement, scoped: set<Table>, t: Tenant): Statement {
    match s
    case SelectStmt(q) => SelectStmt(AddCriteria(q, scoped, t))
    case UpdateStmt(table, mapped, where, assign) =>
      UpdateStmt(table, mapped, TargetCriterion(table, mapped, where, scoped, t), assign)
    case DeleteStmt(table, mapped, where) =>
      DeleteStmt(table, mapped, TargetCriterion(table, mapped, where, scoped, t))
    case OtherStmt => s
  }

  function TargetCriterion(table: Table, mapped: bool, where: Cond, scoped: set<Table>, t: Tenant): Cond {
    var where' := AddCriteriaCond(where, scoped, t);
    if mapped && table in scoped then And(where', OfTenant(0, t)) else where'
  }

  /** What becomes of a statement: the one that runs, or the refusal. */
  function Guarded(s: Statement, internalLoad: bool, scoped: set<Table>, ctx: Option<Tenant>)
    : Result<Statement, GuardError>
  {
    if s.OtherStmt? || internalLoad then Ok(s)
    else if TopMappers(s) * scoped == {} then
      if StatementTables(s) * scoped != {} then Err(UnscopedTableAccess) else Ok(s)
    else if ctx.None? then Err(NoTenantContext)
    else Ok(WithCriteria(s, scoped, ctx.value))
  }

  class OrmExecuteState {
    var statement: Statement
    const internalLoad: bool   // column or relationship load triggered by the ORM itself

    constructor (statement: Statement, internalLoad: bool)
      ensures this.statement == statement && this.internalLoad == internalLoad
    {
      this.statement := statement;
      this.internalLoad := internalLoad;
    }
  }

  method GuardOrmExecute(state: OrmExecuteState, scoped: set<Table>, ctx: Option<Tenant>)
    returns (refused: Option<GuardError>)
    modifies state
    ensures var verdict := Guarded(old(state.statement), state.internalLoad, scoped, ctx);
            if refused.None? then verdict == Ok(state.statement)
            else verdict == Err(refused.value) && state.statement == old(state.statement)
  {
    refused := None;
    if state.statement.OtherStmt? {
      return;
    }
    if state.internalLoad {
      return;
    }
    if TopMappers(state.statement) * scoped == {} {
      refused := RefuseUnscopedTableAccess(state, scoped);
      return;
    }
    if ctx.None? {
      return Some(NoTenantContext);
    }
    state.statement := WithCriteria(state.statement, scoped, ctx.value);
  }

  method RefuseUnscopedTableAccess(state: OrmExecuteState, scoped: set<Table>) returns (refused: Option<GuardError>)
    ensures refused == if StatementTables(state.statement) * scoped == {} then None else Some(UnscopedTableAccess)
  {
    var leaked := StatementTables(state.statement) * scoped;
    refused := if leaked != {} then Some(UnscopedTableAccess) else None;
  }

  /** Whatever is accepted is the statement with its criteria: with no scoped table there are none to add. */
  lemma AcceptedIsWithCriteria(s: Statement, scoped: set<Table>, t: Tenant)
    requires Guarded(s, false, scoped, Some(t)).Ok?
    ensures Guarded(s, false, scoped, Some(t)) == Ok(WithCriteria(s, scoped, t))
    ensures TopMappers(s) * scoped == {} ==> StatementViaEntities(s, scoped)
  {
    if !s.OtherStmt? && TopMappers(s) * scoped == {} {
      assert StatementTables(s) * scoped == {};
      forall table | table in StatementTables(s)
        ensures table !in scoped
      {
        assert table !in StatementTables(s) * scoped;
      }
      match s
      case SelectStmt(q) => UnscopedQueryUnchanged(q, scoped, t);
      case UpdateStmt(table, _, where, _) =>
        assert table in StatementTables(s) && CondTables(where) <= StatementTables(s);
        UnscopedCondUnchanged(where, scoped, t);
      case DeleteStmt(table, _, where) =>
        assert table in StatementTables(s) && CondTables(where) <= StatementTables(s);
        UnscopedCondUnchanged(where, scoped, t);
      case OtherStmt =>
    }
  }

  // --- Which statements are accepted ---

  /** The element of a FROM clause at a position, the leftmost being at 0. */
  function SlotOf(f: From, k: nat): Option<Source> {
    match f
    case Scan(source) => if k == 0 then Some(source) else None
    case Join(left, right, _, _) => if k == Width(left) then Some(right) else SlotOf(left, k)
  }

  /** The column list names a scoped entity: the one at some position of FROM. */
  ghost predicate SelectsScoped(q: Query, scoped: set<Table>) {
    exists k :: k in q.columns && SelectsAt(q, scoped, k)
  }

  predicate SelectsAt(q: Query, scoped: set<Table>, k: nat) {
    var slot := SlotOf(q.from, k);
    slot.Some? && slot.value.Entity? && slot.value.table in scoped
  }

  lemma SlotWithinWidth(f: From, k: nat)
    ensures SlotOf(f, k).Some? <==> k < Width(f)
  {
  }

  lemma {:induction false} ColumnEntityIff(f: From, columns: set<nat>, table: Table)
    ensures table in ColumnEntities(f, columns) <==> exists k :: k in columns && SlotOf(f, k) == Some(Entity(table))
  {
    match f
    case Scan(source) =>
      if source == Entity(table) && 0 in columns {
        assert SlotOf(f, 0) == Some(Entity(table));
      }
    case Join(left, right, _, _) =>
      ColumnEntityIff(left, columns, table);
      SlotWithinWidth(left, Width(left));
      if right == Entity(table) && Width(left) in columns {
        assert SlotOf(f, Width(left)) == Some(Entity(table));
      }
      if k :| k in columns && SlotOf(left, k) == Some(Entity(table)) {
        SlotWithinWidth(left, k);
        assert SlotOf(f, k) == Some(Entity(table));
      }
  }

  lemma TopMappersOfSelect(q: Query, scoped: set<Table>)
    ensures TopMappers(SelectStmt(q)) * scoped != {} <==> SelectsScoped(q, scoped)
  {
    if table :| table in TopMappers(SelectStmt(q)) * scoped {
      ColumnEntityIff(q.from, q.columns, table);
      var k :| k in q.columns && SlotOf(q.from, k) == Some(Entity(table));
      assert SelectsAt(q, scoped, k);
    }
    if k :| k in q.columns && SelectsAt(q, scoped, k) {
      var table := SlotOf(q.from, k).value.table;
      ColumnEntityIff(q.from, q.columns, table);
      assert table in TopMappers(SelectStmt(q)) * scoped;
    }
  }

  /**
   Under a context a SELECT runs with its criteria if its column list names a scoped entity or it
   mentions no scoped table, and is refused otherwise. Without one, naming a scoped entity is
   refused for the missing context, any other mention of a scoped table for that mention.
   */
  lemma SelectVerdict(q: Query, scoped: set<Table>, t: Tenant)
    ensures Guarded(SelectStmt(q), false, scoped, Some(t))
            == if SelectsScoped(q, scoped)
              || QueryTables(q) * scoped == {} then Ok(SelectStmt(AddCriteria(q, scoped, t)))
               else Err(UnscopedTableAccess)
    ensures Guarded(SelectStmt(q), false, scoped, None)
            == if SelectsScoped(q, scoped) then Err(NoTenantContext)
               else if QueryTables(q) * scoped == {} then Ok(SelectStmt(q)) else Err(UnscopedTableAccess)
  {
    TopMappersOfSelect(q, scoped);
    if Guarded(SelectStmt(q), false, scoped, Some(t)).Ok? {
      AcceptedIsWithCriteria(SelectStmt(q), scoped, t);
    }
  }

  /** The same bulk UPDATE or DELETE on other rows. */
  function OnRows(s: Statement, where: Cond): Statement
    requires s.UpdateStmt? || s.DeleteStmt?
  {
    match s
    case UpdateStmt(table, mapped, _, assign) => UpdateStmt(table, mapped, where, assign)
    case DeleteStmt(table, mapped, _) => DeleteStmt(table, mapped, where)
  }

  /**
   A bulk UPDATE or DELETE of a scoped entity runs under a context on the tenant's rows only, and is
   refused without one. Any other runs as it is if it mentions no scoped table, context or not, and
   is refused otherwise.
   */
  lemma BulkVerdict(s: Statement, scoped: set<Table>, t: Tenant, ctx: Option<Tenant>)
    requires s.UpdateStmt? || s.DeleteStmt?
    ensures s.mapped && s.table in scoped ==>
              && Guarded(s, false, scoped, Some(t))
                 == Ok(OnRows(s, And(AddCriteriaCond(s.where, scoped, t), OfTenant(0, t))))
              && Guarded(s, false, scoped, None) == Err(NoTenantContext)
    ensures !(s.mapped && s.table in scoped) ==>
              Guarded(s, false, scoped, ctx)
              == if s.table !in scoped && CondTables(s.where) * scoped == {} then Ok(s) else Err(UnscopedTableAccess)
  {
    if s.table in scoped {
      assert s.mapped ==> s.table in TopMappers(s) * scoped;
      assert s.table in StatementTables(s) * scoped;
    } else {
      assert StatementTables(s) * scoped == CondTables(s.where) * scoped;
    }
  }

  /**
   An accepted SELECT whose scoped tables are all reached as entities returns the tenant's view, on
   every database.
   */
  lemma AcceptedSelectReadsTenantView(q: Query, scoped: set<Table>, t: Tenant, accepted: Statement, db: Database,
                                      env: Tuple)
    requires Guarded(SelectStmt(q), false, scoped, Some(t)) == Ok(accepted)
    requires TopMappers(SelectStmt(q)) * scoped == {} || ViaEntities(q, scoped)
    ensures accepted.SelectStmt? && Eval(accepted.query, db, env) == Eval(q, Restrict(db, scoped, t), env)
  {
    AcceptedIsWithCriteria(SelectStmt(q), scoped, t);
    CriteriaPreserveMeaning(q, scoped, t, db, env);
  }

  /**
   Without a tenant context no statement that runs can depend on scoped data: it is accepted
   unchanged, and two databases that differ only in scoped tables give the same rows.
   */
  lemma NoContextNoScopedData(q: Query, scoped: set<Table>, accepted: Statement, db: Database, db': Database,
                              env: Tuple)
    requires Guarded(SelectStmt(q), false, scoped, None) == Ok(accepted)
    requires forall table :: table !in scoped ==> Stored(db, table) == Stored(db', table)
    ensures accepted == SelectStmt(q) && Eval(q, db, env) == Eval(q, db', env)
  {
    assert QueryTables(q) * scoped == {};
    assert forall table :: table in QueryTables(q) ==> table !in QueryTables(q) * scoped;
    OnlyMentionedTablesMatter(q, db, db', env);
  }

  // --- Flush ---

  /** What the guard looks at in a mapped object: its table and its `tenant_id`. */
  datatype Mark = Mark(table: Table, tenant: Option<Tenant>)

  class MappedObject {
    const table: Table
    var tenant: Option<Tenant>

    constructor (table: Table, tenant: Option<Tenant>)
      ensures this.table == table && this.tenant == tenant
    {
      this.table, this.tenant := table, tenant;
    }
  }

  predicate InsertAllowed(m: Mark, scoped: set<Table>, t: Tenant) {
    m.table in scoped ==> m.tenant == None || m.tenant == Some(t)
  }

  predicate WriteAllowed(m: Mark, scoped: set<Table>, t: Tenant) {
    m.table in scoped ==> m.tenant == Some(t)
  }

  function Stamp(m: Mark, scoped: set<Table>, t: Tenant): Option<Tenant> {
    if m.table in scoped && m.tenant.None? then Some(t) else m.tenant
  }

  predicate AnyScoped(marks: seq<Mark>, scoped: set<Table>) {
    exists i :: 0 <= i < |marks| && marks[i].table in scoped
  }

  /** The outcome of the flush guard: new objects are judged before touched ones. */
  function FlushVerdict(added: seq<Mark>, touched: seq<Mark>, scoped: set<Table>, ctx: Option<Tenant>)
    : Option<GuardError>
  {
    if !AnyScoped(added, scoped) && !AnyScoped(touched, scoped) then None
    else if ctx.None? then Some(NoTenantContext)
    else if exists i :: 0 <= i < |added| && !InsertAllowed(added[i], scoped, ctx.value) then Some(ForeignInsert)
    else if exists i :: 0 <= i < |touched| && !WriteAllowed(touched[i], scoped, ctx.value) then Some(ForeignWrite)
    else None
  }

  ghost function Marks(objs: seq<MappedObject>): seq<Mark>
    reads objs
  {
    seq(|objs|, i requires 0 <= i < |objs| reads objs => Mark(objs[i].table, objs[i].tenant))
  }

  method HoldsScoped(objs: seq<MappedObject>, scoped: set<Table>) returns (found: bool)
    ensures found == AnyScoped(Marks(objs), scoped)
  {
    for i := 0 to |objs|
      invariant forall k :: 0 <= k < i ==> objs[k].table !in scoped
    {
      if objs[i].table in scoped {
        assert Marks(objs)[i].table in scoped;
        return true;
      }
    }
    return false;
  }

  /** Stamps until an object of another tenant is met; `done` objects have been dealt with. */
  method StampAdded(added: seq<MappedObject>, scoped: set<Table>, t: Tenant)
    returns (refused: Option<GuardError>, ghost done: nat)
    requires forall i, j :: 0 <= i < j < |added| ==> added[i] != added[j]
    modifies added
    ensures done <= |added|
    ensures forall i :: 0 <= i < done ==> InsertAllowed(old(Marks(added))[i], scoped, t)
    ensures if done == |added| then refused == None
            else refused == Some(ForeignInsert) && !InsertAllowed(old(Marks(added))[done], scoped, t)
    ensures forall i :: 0 <= i < done ==> added[i].tenant == Stamp(old(Marks(added))[i], scoped, t)
    ensures forall i :: done <= i < |added| ==> added[i].tenant == old(added[i].tenant)
  {
    ghost var before := Marks(added);
    for i := 0 to |added|
      invariant forall k :: 0 <= k < i ==> InsertAllowed(before[k], scoped, t)
      invariant forall k :: 0 <= k < i ==> added[k].tenant == Stamp(before[k], scoped, t)
      invariant forall k :: i <= k < |added| ==> added[k].tenant == before[k].tenant
    {
      var o := added[i];
      if o.table in scoped {
        if o.tenant.None? {
          o.tenant := Some(t);
        } else if o.tenant != Some(t) {
          return Some(ForeignInsert), i;
        }
      }
    }
    return None, |added|;
  }

  method CheckTouched(touched: seq<MappedObject>, scoped: set<Table>, t: Tenant) returns (refused: Option<GuardError>)
    ensures refused == if exists i :: 0 <= i < |touched| && !WriteAllowed(Marks(touched)[i], scoped, t)
                       then Some(ForeignWrite) else None
  {
    for i := 0 to |touched|
      invariant forall k :: 0 <= k < i ==> WriteAllowed(Marks(touched)[k], scoped, t)
    {
      if touched[i].table in scoped && touched[i].tenant != Some(t) {
        assert !WriteAllowed(Marks(touched)[i], scoped, t);
        return Some(ForeignWrite);
      }
    }
    return None;
  }

  /**
   `touched` is the dirty objects followed by the deleted ones; the session holds each object once.
   An accepted flush has stamped exactly the new scoped objects that had no tenant; a refused one
   may have stamped those before the offending object.
   */
  method GuardFlush(added: seq<MappedObject>, touched: seq<MappedObject>, scoped: set<Table>, ctx: Option<Tenant>)
    returns (refused: Option<GuardError>)
    requires forall i, j :: 0 <= i < j < |added| ==> added[i] != added[j]
    requires forall i, j :: 0 <= i < |added| && 0 <= j < |touched| ==> added[i] != touched[j]
    modifies added
    ensures refused == FlushVerdict(old(Marks(added)), old(Marks(touched)), scoped, ctx)
    ensures Marks(touched) == old(Marks(touched))
    ensures ctx.None? ==> Marks(added) == old(Marks(added))
    ensures ctx.Some? && refused.None? ==>
              forall i :: 0 <= i < |added| ==> added[i].tenant == Stamp(old(Marks(added))[i], scoped, ctx.value)
    ensures ctx.Some? ==>
              forall i :: 0 <= i < |added| ==>
                added[i].tenant in {old(added[i].tenant), Stamp(old(Marks(added))[i], scoped, ctx.value)}
  {
    ghost var before, writes := Marks(added), Marks(touched);
    var newScoped := HoldsScoped(added, scoped);
    var touchedScoped := HoldsScoped(touched, scoped);
    if !newScoped && !touchedScoped {
      assert forall i :: 0 <= i < |added| ==> before[i].table !in scoped;
      return None;
    }
    if ctx.None? {
      return Some(NoTenantContext);
    }
    ghost var done;
    refused, done := StampAdded(added, scoped, ctx.value);
    assert Marks(touched) == writes;
    if refused.None? {
      refused := CheckTouched(touched, scoped, ctx.value);
    }
  }
}
