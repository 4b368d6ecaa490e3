/**
 Runs of one session under one tenant context: guarded reads, bulk statements and flushes.
 The session writes only through the guards; two databases that agree on what the tenant may
 see cannot be told apart by it.
 */
module TenantIsolation {
  import opened Wrappers
  import opened TenantQuery
  import opened TenantGuard

  /** A mapped object at flush time: the row its primary key denotes is to become these values. */
  datatype Obj = Obj(table: Table, id: nat, tenant: Option<Tenant>, cells: seq<int>)

  datatype Op =
    | Read(query: Query)
    | Load(table: Table, where: Cond)           // read entities into the session's identity map
    | ColumnLoad(table: Table, id: nat)         // the ORM reloads an object's columns by its primary key
    | RelationLoad(table: Table, where: Cond)   // the ORM follows a relationship, under the query's criteria
    | BulkUpdate(table: Table, where: Cond, assign: Row -> Row)
    | BulkDelete(table: Table, where: Cond)
    | Flush(added: seq<Obj>, dirty: seq<Obj>, deleted: seq<Obj>)

  /** `loaded` is the identity map: the persistent objects the session may write back. */
  datatype State = State(db: Database, loaded: set<(Table, nat)>)

  type Outcome = Result<seq<Row>, GuardError>

  // --- One operation ---

  function LoadQuery(table: Table, where: Cond): Query {
    Select(Scan(Entity(table)), where, {0},
           NoQueries, (env: Tuple, here: Tuple, answers: Answers) => if |here| > 0 then here[0] else Null,
           NoQueries, (rows: seq<Row>, answers: Answers) => rows)
  }

  function ByKeyQuery(table: Table, id: nat): Query {
    LoadQuery(table, Test((env: Tuple, here: Tuple) => |here| > 0 && HasId(here[0], id)))
  }

  predicate HasId(row: Row, id: nat) {
    row.Row? && row.id == id
  }

  /** The entities a query gives join the identity map. */
  function Fetched(s: State, table: Table, q: Query): (State, Outcome) {
    var rows := Eval(q, s.db, []);
    (s.(loaded := s.loaded + set row | row in rows && row.Row? :: (table, row.id)), Ok(rows))
  }

  function UpdateRows(rows: seq<Row>, where: Cond, assign: Row -> Row, db: Database): seq<Row> {
    if rows == [] then []
    else
      [if Holds(where, db, [], [rows[0]]) then assign(rows[0]) else rows[0]]
      + UpdateRows(rows[1..], where, assign, db)
  }

  function DeleteRows(rows: seq<Row>, where: Cond, db: Database): seq<Row> {
    if rows == [] then []
    else (if Holds(where, db, [], [rows[0]]) then [] else [rows[0]]) + DeleteRows(rows[1..], where, db)
  }

  function MarkOf(o: Obj): Mark {
    Mark(o.table, o.tenant)
  }

  function MarksOf(objs: seq<Obj>): seq<Mark> {
    if objs == [] then [] else [MarkOf(objs[0])] + MarksOf(objs[1..])
  }

  function StampAll(objs: seq<Obj>, scoped: set<Table>, t: Tenant): seq<Obj> {
    if objs == [] then []
    else [objs[0].(tenant := Stamp(MarkOf(objs[0]), scoped, t))] + StampAll(objs[1..], scoped, t)
  }

  function RowOf(o: Obj): Row {
    Row(o.id, if o.tenant.Some? then o.tenant.value else 0, o.cells)
  }

  function ReplaceById(rows: seq<Row>, o: Obj): seq<Row> {
    if rows == [] then []
    else [if rows[0].Row? && rows[0].id == o.id then RowOf(o) else rows[0]] + ReplaceById(rows[1..], o)
  }

  function RemoveById(rows: seq<Row>, id: nat): seq<Row> {
    if rows == [] then []
    else (if rows[0].Row? && rows[0].id == id then [] else [rows[0]]) + RemoveById(rows[1..], id)
  }

  function InsertAll(db: Database, objs: seq<Obj>): Database
    decreases objs
  {
    if objs == [] then db
    else InsertAll(db[objs[0].table := Stored(db, objs[0].table) + [RowOf(objs[0])]], objs[1..])
  }

  function ReplaceAll(db: Database, objs: seq<Obj>): Database
    decreases objs
  {
    if objs == [] then db
    else ReplaceAll(db[objs[0].table := ReplaceById(Stored(db, objs[0].table), objs[0])], objs[1..])
  }

  function RemoveAll(db: Database, objs: seq<Obj>): Database
    decreases objs
  {
    if objs == [] then db
    else RemoveAll(db[objs[0].table := RemoveById(Stored(db, objs[0].table), objs[0].id)], objs[1..])
  }

  function Keys(objs: seq<Obj>): set<(Table, nat)> {
    set i | 0 <= i < |objs| :: (objs[i].table, objs[i].id)
  }

  /** The guarded operation: a refusal changes nothing, an accepted one runs what the guard let through. */
  function Step(s: State, op: Op, scoped: set<Table>, t: Tenant): (State, Outcome) {
    match op
    case Read(query) =>
      (match Guarded(SelectStmt(query), false, scoped, Some(t))
       case Ok(SelectStmt(q)) => (s, Ok(Eval(q, s.db, [])))
       case Ok(_) => (s, Ok([]))
       case Err(e) => (s, Err(e)))
    case Load(table, where) =>
      (match Guarded(SelectStmt(LoadQuery(table, where)), false, scoped, Some(t))
       case Ok(SelectStmt(q)) => Fetched(s, table, q)
       case Ok(_) => (s, Ok([]))
       case Err(e) => (s, Err(e)))
    case ColumnLoad(table, id) =>
      (match Guarded(SelectStmt(ByKeyQuery(table, id)), true, scoped, Some(t))
       case Ok(SelectStmt(q)) => (s, Ok(Eval(q, s.db, [])))
       case Ok(_) => (s, Ok([]))
       case Err(e) => (s, Err(e)))
    case RelationLoad(table, where) =>
      (match Guarded(SelectStmt(AddCriteria(LoadQuery(table, where), scoped, t)), true, scoped, Some(t))
       case Ok(SelectStmt(q)) => Fetched(s, table, q)
       case Ok(_) => (s, Ok([]))
       case Err(e) => (s, Err(e)))
    case BulkUpdate(table, where, assign) =>
      (match Guarded(UpdateStmt(table, true, where, assign), false, scoped, Some(t))
       case Ok(UpdateStmt(_, _, w, f)) =>
         (s.(db := s.db[table := UpdateRows(Stored(s.db, table), w, f, s.db)]), Ok([]))
       case Ok(_) => (s, Ok([]))
       case Err(e) => (s, Err(e)))
    case BulkDelete(table, where) =>
      (match Guarded(DeleteStmt(table, true, where), false, scoped, Some(t))
       case Ok(DeleteStmt(_, _, w)) =>
         (s.(db := s.db[table := DeleteRows(Stored(s.db, table), w, s.db)]), Ok([]))
       case Ok(_) => (s, Ok([]))
       case Err(e) => (s, Err(e)))
    case Flush(added, dirty, deleted) =>
      (match FlushVerdict(MarksOf(added), MarksOf(dirty + deleted), scoped, Some(t))
       case Some(e) => (s, Err(e))
       case None =>
         var db := RemoveAll(ReplaceAll(InsertAll(s.db, StampAll(added, scoped, t)), dirty), deleted);
         (State(db, s.loaded + Keys(added)), Ok([])))
  }

  // --- What the application owes the guards ---

  predicate IdFree(db: Database, table: Table, id: nat) {
    forall row :: row in Stored(db, table) ==> !(row.Row? && row.id == id)
  }

  /** An UPDATE that leaves the primary key and `tenant_id` alone. */
  ghost predicate KeepsIdentity(assign: Row -> Row) {
    forall row: Row :: row.Row? ==> assign(row).Row? && assign(row).id == row.id && assign(row).tenant == row.tenant
  }

  /**
   Scoped tables are reached as entities, bulk updates leave `tenant_id` alone, new primary keys
   are fresh, and only objects loaded or added by this session are reloaded or written back.
   */
  ghost predicate Permitted(op: Op, s: State, scoped: set<Table>) {
    match op
    case Read(query) => ViaEntities(query, scoped)
    case Load(_, where) => ViaEntitiesCond(where, scoped)
    case ColumnLoad(table, id) => (table, id) in s.loaded
    case RelationLoad(_, where) => ViaEntitiesCond(where, scoped)
    case BulkUpdate(_, where, assign) => ViaEntitiesCond(where, scoped) && KeepsIdentity(assign)
    case BulkDelete(_, where) => ViaEntitiesCond(where, scoped)
    case Flush(added, dirty, deleted) =>
      && (forall i :: 0 <= i < |added| ==> IdFree(s.db, added[i].table, added[i].id))
      && Keys(dirty) + Keys(deleted) <= s.loaded
  }

  /** Rows of a scoped table that share a primary key share their tenant, and the loaded ones belong to `t`. */
  ghost predicate Coherent(s: State, scoped: set<Table>, t: Tenant) {
    forall table | table in scoped :: CoherentTable(Stored(s.db, table), table, s.loaded, t)
  }

  ghost predicate CoherentTable(rows: seq<Row>, table: Table, loaded: set<(Table, nat)>, t: Tenant) {
    && (forall r, r' :: r in rows && r' in rows && r.Row? && r'.Row? && r.id == r'.id ==> r.tenant == r'.tenant)
    && (forall r :: r in rows && r.Row? && (table, r.id) in loaded ==> r.tenant == t)
  }

  function Others(rows: seq<Row>, t: Tenant): seq<Row> {
    if rows == [] then []
    else (if OwnedBy(rows[0], t) then [] else [rows[0]]) + Others(rows[1..], t)
  }

  /** The rows of the other tenants are the same, in every scoped table. */
  ghost predicate OthersUntouched(db: Database, db': Database, scoped: set<Table>, t: Tenant) {
    forall table | table in scoped :: Others(Stored(db', table), t) == Others(Stored(db, table), t)
  }

  // --- Reads ---

  lemma RestrictStored(db: Database, scoped: set<Table>, t: Tenant, table: Table)
    ensures Stored(Restrict(db, scoped, t), table)
            == if table in scoped then Owned(Stored(db, table), t) else Stored(db, table)
  {
  }

  lemma OwnedIdempotent(rows: seq<Row>, t: Tenant)
    ensures Owned(Owned(rows, t), t) == Owned(rows, t)
  {
    if rows != [] {
      if OwnedBy(rows[0], t) {
        assert Owned(rows, t)[1..] == Owned(rows[1..], t);
      } else {
        assert Owned(rows, t) == Owned(rows[1..], t);
      }
    }
  }

  lemma OwnedMembers(rows: seq<Row>, t: Tenant)
    ensures forall row :: row in Owned(rows, t) <==> row in rows && OwnedBy(row, t)
  {
  }

  lemma RestrictIdempotent(db: Database, scoped: set<Table>, t: Tenant)
    ensures Restrict(Restrict(db, scoped, t), scoped, t) == Restrict(db, scoped, t)
  {
    forall table | table in db
      ensures table in scoped ==> Owned(Owned(db[table], t), t) == Owned(db[table], t)
    {
      OwnedIdempotent(db[table], t);
    }
  }

  /**
   An accepted SELECT is the one with criteria, and gives the same rows on the tenant's view as on
   the whole database.
   */
  lemma AcceptedReadOnView(q: Query, scoped: set<Table>, t: Tenant, db: Database)
    requires ViaEntities(q, scoped) && Guarded(SelectStmt(q), false, scoped, Some(t)).Ok?
    ensures Guarded(SelectStmt(q), false, scoped, Some(t)) == Ok(SelectStmt(AddCriteria(q, scoped, t)))
    ensures Eval(AddCriteria(q, scoped, t), db, []) == Eval(q, Restrict(db, scoped, t), [])
    ensures Eval(AddCriteria(q, scoped, t), Restrict(db, scoped, t), []) == Eval(q, Restrict(db, scoped, t), [])
  {
    AcceptedIsWithCriteria(SelectStmt(q), scoped, t);
    CriteriaPreserveMeaning(q, scoped, t, db, []);
    CriteriaPreserveMeaning(q, scoped, t, Restrict(db, scoped, t), []);
    RestrictIdempotent(db, scoped, t);
  }

  lemma LoadedRowsAreStored(rows: seq<Row>, table: Table, where: Cond, db: Database)
    ensures var loaded := Keep(Singletons(rows), where, db, []);
            forall row :: row in Project(LoadQuery(table, where).project, NoQueries, loaded, db, []) ==> row in rows
  {
    if rows != [] {
      assert Singletons(rows)[1..] == Singletons(rows[1..]);
      LoadedRowsAreStored(rows[1..], table, where, db);
      var rest := Keep(Singletons(rows[1..]), where, db, []);
      if Holds(where, db, [], [rows[0]]) {
        assert Keep(Singletons(rows), where, db, [])[1..] == rest;
      } else {
        assert Keep(Singletons(rows), where, db, []) == rest;
      }
    }
  }

  /** The rows of a primary key that belongs to the tenant are its own. */
  lemma {:induction false} KeyRowsOwned(rows: seq<Row>, where: Cond, id: nat, t: Tenant, db: Database, db': Database)
    requires forall row :: row in rows && HasId(row, id) ==> OwnedBy(row, t)
    requires forall any: Database, row :: Holds(where, any, [], [row]) <==> HasId(row, id)
    ensures Keep(Singletons(rows), where, db, []) == Keep(Singletons(Owned(rows, t)), where, db', [])
    decreases |rows|
  {
    if rows != [] {
      KeyRowsOwned(rows[1..], where, id, t, db, db');
      assert rows[0] in rows && Singletons(rows)[1..] == Singletons(rows[1..]);
      if OwnedBy(rows[0], t) {
        assert Owned(rows, t)[1..] == Owned(rows[1..], t);
        assert Singletons(Owned(rows, t))[1..] == Singletons(Owned(rows[1..], t));
      } else {
        assert Owned(rows, t) == Owned(rows[1..], t);
      }
    }
  }

  lemma KeptAlike(project: (Tuple, Tuple, Answers) -> Row, tuples: seq<Tuple>, db: Database, db': Database)
    ensures Project(project, NoQueries, tuples, db, []) == Project(project, NoQueries, tuples, db', [])
    decreases |tuples|
  {
    if tuples != [] {
      KeptAlike(project, tuples[1..], db, db');
      assert Answered(NoQueries, db, [] + tuples[0]) == Answered(NoQueries, db', [] + tuples[0]);
    }
  }

  // --- Bulk statements ---

  /** The criterion of a bulk statement picks the same rows on the view, and in a scoped table only the tenant's. */
  lemma CriterionOnView(table: Table, where: Cond, scoped: set<Table>, t: Tenant, db: Database, row: Row)
    requires ViaEntitiesCond(where, scoped)
    ensures var w := TargetCriterion(table, true, where, scoped, t);
            && (Holds(w, db, [], [row]) <==> Holds(w, Restrict(db, scoped, t), [], [row]))
            && (table in scoped && Holds(w, db, [], [row]) ==> OwnedBy(row, t))
  {
    CondPreserved(where, scoped, t, db, [], [row]);
    CondPreserved(where, scoped, t, Restrict(db, scoped, t), [], [row]);
    RestrictIdempotent(db, scoped, t);
  }

  lemma {:induction false} UpdateRowsOnView(rows: seq<Row>, table: Table, where: Cond, assign: Row -> Row,
                                            scoped: set<Table>, t: Tenant, db: Database)
    requires ViaEntitiesCond(where, scoped) && KeepsIdentity(assign)
    ensures var w := TargetCriterion(table, true, where, scoped, t);
            var view := Restrict(db, scoped, t);
            && (table !in scoped ==> UpdateRows(rows, w, assign, db) == UpdateRows(rows, w, assign, view))
            && (table in scoped ==>
                  && Owned(UpdateRows(rows, w, assign, db), t) == UpdateRows(Owned(rows, t), w, assign, view)
                  && Others(UpdateRows(rows, w, assign, db), t) == Others(rows, t))
    decreases |rows|
  {
    if rows != [] {
      var w := TargetCriterion(table, true, where, scoped, t);
      CriterionOnView(table, where, scoped, t, db, rows[0]);
      UpdateRowsOnView(rows[1..], table, where, assign, scoped, t, db);
      var updated := UpdateRows(rows, w, assign, db);
      assert updated[1..] == UpdateRows(rows[1..], w, assign, db);
      assert table in scoped ==> (OwnedBy(updated[0], t) <==> OwnedBy(rows[0], t));
      if OwnedBy(rows[0], t) {
        assert Owned(rows, t)[1..] == Owned(rows[1..], t);
      } else {
        assert Owned(rows, t) == Owned(rows[1..], t);
      }
    }
  }

  lemma UpdatedRowsKeepIdentity(rows: seq<Row>, w: Cond, assign: Row -> Row, db: Database)
    requires KeepsIdentity(assign)
    ensures var updated := UpdateRows(rows, w, assign, db);
            |updated| == |rows|
            && forall i :: 0 <= i < |rows| && rows[i].Row? ==>
                 updated[i].Row? && updated[i].id == rows[i].id && updated[i].tenant == rows[i].tenant
  {
  }

  lemma {:induction false} DeleteRowsOnView(rows: seq<Row>, table: Table, where: Cond, scoped: set<Table>, t: Tenant,
                                            db: Database)
    requires ViaEntitiesCond(where, scoped)
    ensures var w := TargetCriterion(table, true, where, scoped, t);
            var view := Restrict(db, scoped, t);
            && (table !in scoped ==> DeleteRows(rows, w, db) == DeleteRows(rows, w, view))
            && (table in scoped ==>
                  && Owned(DeleteRows(rows, w, db), t) == DeleteRows(Owned(rows, t), w, view)
                  && Others(DeleteRows(rows, w, db), t) == Others(rows, t))
    decreases |rows|
  {
    if rows != [] {
      var w := TargetCriterion(table, true, where, scoped, t);
      CriterionOnView(table, where, scoped, t, db, rows[0]);
      DeleteRowsOnView(rows[1..], table, where, scoped, t, db);
      var kept := DeleteRows(rows, w, db);
      var rest := DeleteRows(rows[1..], w, db);
      if Holds(w, db, [], [rows[0]]) {
        assert kept == rest;
      } else {
        assert kept[1..] == rest;
      }
      if OwnedBy(rows[0], t) {
        assert Owned(rows, t)[1..] == Owned(rows[1..], t);
        assert Others(rows, t) == Others(rows[1..], t);
      } else {
        assert Owned(rows, t) == Owned(rows[1..], t);
      }
    }
  }

  lemma KeptRowsAreStored(rows: seq<Row>, w: Cond, db: Database)
    ensures forall row :: row in DeleteRows(rows, w, db) ==> row in rows
  {
  }

  // --- Flushes ---

  ghost predicate IdMine(rows: seq<Row>, id: nat, t: Tenant) {
    forall row :: row in rows && row.Row? && row.id == id ==> row.tenant == t
  }

  lemma RestrictUpdated(db: Database, table: Table, rows: seq<Row>, scoped: set<Table>, t: Tenant)
    ensures Restrict(db[table := rows], scoped, t)
            == Restrict(db, scoped, t)[table := if table in scoped then Owned(rows, t) else rows]
  {
  }

  lemma {:induction false} OwnedAppend(rows: seq<Row>, row: Row, t: Tenant)
    requires OwnedBy(row, t)
    ensures Owned(rows + [row], t) == Owned(rows, t) + [row]
    ensures Others(rows + [row], t) == Others(rows, t)
    decreases |rows|
  {
    if rows == [] {
      assert rows + [row] == [row] && [row][1..] == [];
      assert Owned([], t) == [] && Others([], t) == [];
    } else {
      assert (rows + [row])[1..] == rows[1..] + [row];
      OwnedAppend(rows[1..], row, t);
      var rest := Owned(rows[1..], t);
      if OwnedBy(rows[0], t) {
        assert [rows[0]] + (rest + [row]) == ([rows[0]] + rest) + [row];
      }
    }
  }

  lemma {:induction false} InsertAllOnView(db: Database, objs: seq<Obj>, loaded: set<(Table, nat)>, scoped: set<Table>,
                                           t: Tenant)
    requires Coherent(State(db, loaded), scoped, t)
    requires forall o :: o in objs && o.table in scoped ==> o.tenant == Some(t) && IdMine(Stored(db, o.table), o.id, t)
    ensures InsertAll(Restrict(db, scoped, t), objs) == Restrict(InsertAll(db, objs), scoped, t)
    ensures OthersUntouched(db, InsertAll(db, objs), scoped, t)
    ensures Coherent(State(InsertAll(db, objs), loaded + Keys(objs)), scoped, t)
    decreases objs
  {
    if objs == [] {
      assert loaded + Keys(objs) == loaded;
    } else {
      var o := objs[0];
      var db' := db[o.table := Stored(db, o.table) + [RowOf(o)]];
      var loaded' := loaded + {(o.table, o.id)};
      InsertOneOnView(db, o, loaded, scoped, t);
      assert Keys(objs) == {(o.table, o.id)} + Keys(objs[1..]) by {
        KeysStep(objs);
      }
      assert loaded + Keys(objs) == loaded' + Keys(objs[1..]);
      InsertAllOnView(db', objs[1..], loaded', scoped, t);
    }
  }

  lemma InsertOneOnView(db: Database, o: Obj, loaded: set<(Table, nat)>, scoped: set<Table>, t: Tenant)
    requires Coherent(State(db, loaded), scoped, t)
    requires o.table in scoped ==> o.tenant == Some(t) && IdMine(Stored(db, o.table), o.id, t)
    ensures var db' := db[o.table := Stored(db, o.table) + [RowOf(o)]];
            var view := Restrict(db, scoped, t);
            && Restrict(db', scoped, t) == view[o.table := Stored(view, o.table) + [RowOf(o)]]
            && OthersUntouched(db, db', scoped, t)
            && Coherent(State(db', loaded + {(o.table, o.id)}), scoped, t)
  {
    var rows := Stored(db, o.table);
    var db' := db[o.table := rows + [RowOf(o)]];
    RestrictUpdated(db, o.table, rows + [RowOf(o)], scoped, t);
    RestrictStored(db, scoped, t, o.table);
    if o.table in scoped {
      OwnedAppend(rows, RowOf(o), t);
      InsertedCoherent(rows, o, loaded, t);
    }
    forall table | table in scoped
      ensures CoherentTable(Stored(db', table), table, loaded + {(o.table, o.id)}, t)
    {
      assert CoherentTable(Stored(db, table), table, loaded, t);
    }
  }

  lemma InsertedCoherent(rows: seq<Row>, o: Obj, loaded: set<(Table, nat)>, t: Tenant)
    requires CoherentTable(rows, o.table, loaded, t) && o.tenant == Some(t) && IdMine(rows, o.id, t)
    ensures CoherentTable(rows + [RowOf(o)], o.table, loaded + {(o.table, o.id)}, t)
  {
    assert forall r :: r in rows + [RowOf(o)] <==> r in rows || r == RowOf(o);
  }

  lemma KeysStep(objs: seq<Obj>)
    requires objs != []
    ensures Keys(objs) == {(objs[0].table, objs[0].id)} + Keys(objs[1..])
  {
    forall key | key in Keys(objs)
      ensures key in {(objs[0].table, objs[0].id)} + Keys(objs[1..])
    {
      var i :| 0 <= i < |objs| && key == (objs[i].table, objs[i].id);
      if i > 0 {
        assert objs[1..][i - 1] == objs[i];
      }
    }
    forall key | key in Keys(objs[1..])
      ensures key in Keys(objs)
    {
      var i :| 0 <= i < |objs[1..]| && key == (objs[1..][i].table, objs[1..][i].id);
      assert objs[i + 1] == objs[1..][i];
    }
  }

  lemma {:induction false} ReplaceByIdOnView(rows: seq<Row>, o: Obj, t: Tenant)
    requires o.tenant == Some(t) && IdMine(rows, o.id, t)
    ensures Owned(ReplaceById(rows, o), t) == ReplaceById(Owned(rows, t), o)
    ensures Others(ReplaceById(rows, o), t) == Others(rows, t)
    ensures |ReplaceById(rows, o)| == |rows|
    ensures forall i :: 0 <= i < |rows| ==>
              if rows[i].Row? then
                && ReplaceById(rows, o)[i].Row? && ReplaceById(rows, o)[i].id == rows[i].id
                && ReplaceById(rows, o)[i].tenant == rows[i].tenant
              else ReplaceById(rows, o)[i] == rows[i]
    decreases |rows|
  {
    if rows != [] {
      ReplaceByIdOnView(rows[1..], o, t);
      var replaced := ReplaceById(rows, o);
      assert replaced[1..] == ReplaceById(rows[1..], o);
      assert rows[0] in rows;
      if OwnedBy(rows[0], t) {
        assert Owned(rows, t)[1..] == Owned(rows[1..], t);
        assert Others(rows, t) == Others(rows[1..], t);
      } else {
        assert Owned(rows, t) == Owned(rows[1..], t);
      }
    }
  }

  lemma {:induction false} RemoveByIdOnView(rows: seq<Row>, id: nat, t: Tenant)
    requires IdMine(rows, id, t)
    ensures Owned(RemoveById(rows, id), t) == RemoveById(Owned(rows, t), id)
    ensures Others(RemoveById(rows, id), t) == Others(rows, t)
    ensures forall row :: row in RemoveById(rows, id) ==> row in rows
    decreases |rows|
  {
    if rows != [] {
      RemoveByIdOnView(rows[1..], id, t);
      var kept, rest := RemoveById(rows, id), RemoveById(rows[1..], id);
      assert rows[0] in rows;
      if rows[0].Row? && rows[0].id == id {
        assert kept == rest;
      } else {
        assert kept[1..] == rest;
      }
      if OwnedBy(rows[0], t) {
        assert Owned(rows, t)[1..] == Owned(rows[1..], t);
        assert Others(rows, t) == Others(rows[1..], t);
      } else {
        assert Owned(rows, t) == Owned(rows[1..], t);
      }
    }
  }

  lemma {:induction false} ReplaceAllOnView(db: Database, objs: seq<Obj>, loaded: set<(Table, nat)>, scoped: set<Table>,
                                            t: Tenant)
    requires Coherent(State(db, loaded), scoped, t)
    requires forall o :: o in objs && o.table in scoped ==> o.tenant == Some(t) && (o.table, o.id) in loaded
    ensures ReplaceAll(Restrict(db, scoped, t), objs) == Restrict(ReplaceAll(db, objs), scoped, t)
    ensures OthersUntouched(db, ReplaceAll(db, objs), scoped, t)
    ensures Coherent(State(ReplaceAll(db, objs), loaded), scoped, t)
    decreases objs
  {
    if objs != [] {
      var o := objs[0];
      var rows := Stored(db, o.table);
      var db' := db[o.table := ReplaceById(rows, o)];
      RestrictUpdated(db, o.table, ReplaceById(rows, o), scoped, t);
      if o.table in scoped {
        assert CoherentTable(rows, o.table, loaded, t);
        ReplaceByIdOnView(rows, o, t);
        SameIdentityCoherent(rows, ReplaceById(rows, o), o.table, loaded, t);
      }
      assert Coherent(State(db', loaded), scoped, t) by {
        forall table | table in scoped
          ensures CoherentTable(Stored(db', table), table, loaded, t)
        {
          assert CoherentTable(Stored(db, table), table, loaded, t);
        }
      }
      ReplaceAllOnView(db', objs[1..], loaded, scoped, t);
    }
  }

  lemma SameIdentityCoherent(rows: seq<Row>, rows': seq<Row>, table: Table, loaded: set<(Table, nat)>, t: Tenant)
    requires CoherentTable(rows, table, loaded, t) && |rows| == |rows'|
    requires forall i :: 0 <= i < |rows| && rows'[i].Row? ==>
               rows[i].Row? && rows'[i].id == rows[i].id && rows'[i].tenant == rows[i].tenant
    ensures CoherentTable(rows', table, loaded, t)
  {
    forall r, r' | r in rows' && r' in rows' && r.Row? && r'.Row? && r.id == r'.id
      ensures r.tenant == r'.tenant
    {
      var i, j :| 0 <= i < |rows'| && rows'[i] == r && 0 <= j < |rows'| && rows'[j] == r';
      assert rows[i] in rows && rows[j] in rows;
    }
    forall r | r in rows' && r.Row? && (table, r.id) in loaded
      ensures r.tenant == t
    {
      var i :| 0 <= i < |rows'| && rows'[i] == r;
      assert rows[i] in rows;
    }
  }

  lemma {:induction false} RemoveAllOnView(db: Database, objs: seq<Obj>, loaded: set<(Table, nat)>, scoped: set<Table>,
                                           t: Tenant)
    requires Coherent(State(db, loaded), scoped, t)
    requires forall o :: o in objs && o.table in scoped ==> (o.table, o.id) in loaded
    ensures RemoveAll(Restrict(db, scoped, t), objs) == Restrict(RemoveAll(db, objs), scoped, t)
    ensures OthersUntouched(db, RemoveAll(db, objs), scoped, t)
    ensures Coherent(State(RemoveAll(db, objs), loaded), scoped, t)
    decreases objs
  {
    if objs != [] {
      var o := objs[0];
      var rows := Stored(db, o.table);
      var db' := db[o.table := RemoveById(rows, o.id)];
      RestrictUpdated(db, o.table, RemoveById(rows, o.id), scoped, t);
      if o.table in scoped {
        assert CoherentTable(rows, o.table, loaded, t);
        RemoveByIdOnView(rows, o.id, t);
      }
      assert Coherent(State(db', loaded), scoped, t) by {
        forall table | table in scoped
          ensures CoherentTable(Stored(db', table), table, loaded, t)
        {
          assert CoherentTable(Stored(db, table), table, loaded, t);
        }
      }
      RemoveAllOnView(db', objs[1..], loaded, scoped, t);
    }
  }

  lemma AllowedMarks(added: seq<Obj>, touched: seq<Obj>, scoped: set<Table>, t: Tenant)
    requires FlushVerdict(MarksOf(added), MarksOf(touched), scoped, Some(t)) == None
    ensures forall o :: o in added ==> InsertAllowed(MarkOf(o), scoped, t)
    ensures forall o :: o in touched ==> WriteAllowed(MarkOf(o), scoped, t)
  {
    MarksAt(added);
    MarksAt(touched);
  }

  lemma MarksAt(objs: seq<Obj>)
    ensures |MarksOf(objs)| == |objs| && forall i :: 0 <= i < |objs| ==> MarksOf(objs)[i] == MarkOf(objs[i])
  {
  }

  lemma StampedAt(objs: seq<Obj>, scoped: set<Table>, t: Tenant)
    ensures |StampAll(objs, scoped, t)| == |objs|
    ensures forall i :: 0 <= i < |objs| ==>
              StampAll(objs, scoped, t)[i] == objs[i].(tenant := Stamp(MarkOf(objs[i]), scoped, t))
  {
  }

  // --- One step ---

  /**
   The step of a permitted operation on the whole database, seen by the tenant, is the same step
   on its view: same outcome, same view afterwards. Other tenants' rows do not move.
   */
  ghost predicate StepsOnView(s: State, op: Op, scoped: set<Table>, t: Tenant) {
    var (s', outcome) := Step(s, op, scoped, t);
    && Step(s.(db := Restrict(s.db, scoped, t)), op, scoped, t) == (s'.(db := Restrict(s'.db, scoped, t)), outcome)
    && OthersUntouched(s.db, s'.db, scoped, t)
    && Coherent(s', scoped, t)
  }

  lemma ReadOnView(s: State, query: Query, scoped: set<Table>, t: Tenant)
    requires Coherent(s, scoped, t) && ViaEntities(query, scoped)
    ensures StepsOnView(s, Read(query), scoped, t)
  {
    if Guarded(SelectStmt(query), false, scoped, Some(t)).Ok? {
      AcceptedReadOnView(query, scoped, t, s.db);
    }
  }

  /** Entities fetched by a query with criteria are the view's, and so they join the map as the tenant's. */
  lemma FetchedOnView(s: State, table: Table, where: Cond, scoped: set<Table>, t: Tenant)
    requires Coherent(s, scoped, t) && ViaEntitiesCond(where, scoped)
    ensures var q := AddCriteria(LoadQuery(table, where), scoped, t);
            var (s', outcome) := Fetched(s, table, q);
            && Fetched(s.(db := Restrict(s.db, scoped, t)), table, q)
               == (s'.(db := Restrict(s'.db, scoped, t)), outcome)
            && s'.db == s.db && Coherent(s', scoped, t)
  {
    var plain := LoadQuery(table, where);
    var view := Restrict(s.db, scoped, t);
    CriteriaPreserveMeaning(plain, scoped, t, s.db, []);
    CriteriaPreserveMeaning(plain, scoped, t, view, []);
    RestrictIdempotent(s.db, scoped, t);
    var rows := Eval(plain, view, []);
    LoadedRowsAreStored(Stored(view, table), table, where, view);
    assert Tuples(plain.from, view, []) == Singletons(Rows(Entity(table), view, []));
    assert rows == Project(plain.project, NoQueries, Keep(Singletons(Stored(view, table)), where, view, []), view, []);
    OwnedMembers(Stored(s.db, table), t);
    RestrictStored(s.db, scoped, t, table);
    var s' := Fetched(s, table, AddCriteria(plain, scoped, t)).0;
    forall tb | tb in scoped
      ensures CoherentTable(Stored(s'.db, tb), tb, s'.loaded, t)
    {
      assert CoherentTable(Stored(s.db, tb), tb, s.loaded, t);
    }
  }

  lemma LoadOnView(s: State, table: Table, where: Cond, scoped: set<Table>, t: Tenant)
    requires Coherent(s, scoped, t) && ViaEntitiesCond(where, scoped)
    ensures StepsOnView(s, Load(table, where), scoped, t)
    ensures StepsOnView(s, RelationLoad(table, where), scoped, t)
  {
    FetchedOnView(s, table, where, scoped, t);
    if Guarded(SelectStmt(LoadQuery(table, where)), false, scoped, Some(t)).Ok? {
      AcceptedIsWithCriteria(SelectStmt(LoadQuery(table, where)), scoped, t);
    }
  }

  lemma OneTable(q: Query, table: Table)
    requires q.from == Scan(Entity(table)) && q.where.Test? && q.perRow.NoQueries? && q.once.NoQueries?
    ensures QueryTables(q) == {table}
  {
    assert SourceTables(q.from.source) == {table};
    assert FromTables(q.from) == {table} && CondTables(q.where) == {};
    assert QueriesTables(q.perRow) == {} && QueriesTables(q.once) == {};
  }

  lemma ColumnLoadOnView(s: State, table: Table, id: nat, scoped: set<Table>, t: Tenant)
    requires Coherent(s, scoped, t) && (table, id) in s.loaded
    ensures StepsOnView(s, ColumnLoad(table, id), scoped, t)
  {
    var q := ByKeyQuery(table, id);
    var view := Restrict(s.db, scoped, t);
    var rows := Stored(s.db, table);
    RestrictStored(s.db, scoped, t, table);
    if table in scoped {
      assert CoherentTable(rows, table, s.loaded, t);
      KeyRowsOwned(rows, q.where, id, t, s.db, view);
      KeptAlike(q.project, Keep(Singletons(rows), q.where, s.db, []), s.db, view);
      assert Tuples(q.from, s.db, []) == Singletons(rows);
      assert Tuples(q.from, view, []) == Singletons(Owned(rows, t));
      assert Eval(q, s.db, []) == Eval(q, view, []);
    } else {
      OneTable(q, table);
      OnlyMentionedTablesMatter(q, s.db, view, []);
    }
  }

  lemma BulkUpdateOnView(s: State, table: Table, where: Cond, assign: Row -> Row, scoped: set<Table>, t: Tenant)
    requires Coherent(s, scoped, t) && ViaEntitiesCond(where, scoped) && KeepsIdentity(assign)
    ensures StepsOnView(s, BulkUpdate(table, where, assign), scoped, t)
  {
    var stmt := UpdateStmt(table, true, where, assign);
    if Guarded(stmt, false, scoped, Some(t)).Ok? {
      AcceptedIsWithCriteria(stmt, scoped, t);
      UpdatedOnView(s, table, where, assign, scoped, t);
    }
  }

  lemma UpdatedOnView(s: State, table: Table, where: Cond, assign: Row -> Row, scoped: set<Table>, t: Tenant)
    requires Coherent(s, scoped, t) && ViaEntitiesCond(where, scoped) && KeepsIdentity(assign)
    ensures var w := TargetCriterion(table, true, where, scoped, t);
            var view := Restrict(s.db, scoped, t);
            var db' := s.db[table := UpdateRows(Stored(s.db, table), w, assign, s.db)];
            && view[table := UpdateRows(Stored(view, table), w, assign, view)] == Restrict(db', scoped, t)
            && OthersUntouched(s.db, db', scoped, t) && Coherent(s.(db := db'), scoped, t)
  {
    var w := TargetCriterion(table, true, where, scoped, t);
    var rows := Stored(s.db, table);
    var updated := UpdateRows(rows, w, assign, s.db);
    UpdateRowsOnView(rows, table, where, assign, scoped, t, s.db);
    RestrictUpdated(s.db, table, updated, scoped, t);
    RestrictStored(s.db, scoped, t, table);
    if table in scoped {
      UpdatedCoherent(s, table, where, assign, scoped, t);
    }
    ReplacedCoherent(s, table, updated, scoped, t);
  }

  lemma UpdatedCoherent(s: State, table: Table, where: Cond, assign: Row -> Row, scoped: set<Table>, t: Tenant)
    requires Coherent(s, scoped, t) && ViaEntitiesCond(where, scoped) && KeepsIdentity(assign) && table in scoped
    ensures CoherentTable(UpdateRows(Stored(s.db, table), TargetCriterion(table, true, where, scoped, t), assign, s.db),
                          table, s.loaded, t)
  {
    var w := TargetCriterion(table, true, where, scoped, t);
    var rows := Stored(s.db, table);
    assert CoherentTable(rows, table, s.loaded, t);
    UpdatedRowsKeepIdentity(rows, w, assign, s.db);
    NullRowsStay(rows, table, where, assign, scoped, t, s.db);
    SameIdentityCoherent(rows, UpdateRows(rows, w, assign, s.db), table, s.loaded, t);
  }

  lemma ReplacedCoherent(s: State, table: Table, rows: seq<Row>, scoped: set<Table>, t: Tenant)
    requires Coherent(s, scoped, t) && (table in scoped ==> CoherentTable(rows, table, s.loaded, t))
    ensures Coherent(s.(db := s.db[table := rows]), scoped, t)
  {
    forall tb | tb in scoped
      ensures CoherentTable(Stored(s.db[table := rows], tb), tb, s.loaded, t)
    {
      assert CoherentTable(Stored(s.db, tb), tb, s.loaded, t);
    }
  }

  lemma NullRowsStay(rows: seq<Row>, table: Table, where: Cond, assign: Row -> Row, scoped: set<Table>, t: Tenant,
                     db: Database)
    requires table in scoped && ViaEntitiesCond(where, scoped)
    ensures var updated := UpdateRows(rows, TargetCriterion(table, true, where, scoped, t), assign, db);
            |updated| == |rows| && forall i :: 0 <= i < |rows| && rows[i].Null? ==> updated[i].Null?
  {
    if rows != [] {
      CriterionOnView(table, where, scoped, t, db, rows[0]);
      NullRowsStay(rows[1..], table, where, assign, scoped, t, db);
    }
  }

  lemma BulkDeleteOnView(s: State, table: Table, where: Cond, scoped: set<Table>, t: Tenant)
    requires Coherent(s, scoped, t) && ViaEntitiesCond(where, scoped)
    ensures StepsOnView(s, BulkDelete(table, where), scoped, t)
  {
    var stmt := DeleteStmt(table, true, where);
    if Guarded(stmt, false, scoped, Some(t)).Ok? {
      AcceptedIsWithCriteria(stmt, scoped, t);
      DeletedOnView(s, table, where, scoped, t);
    }
  }

  lemma DeletedOnView(s: State, table: Table, where: Cond, scoped: set<Table>, t: Tenant)
    requires Coherent(s, scoped, t) && ViaEntitiesCond(where, scoped)
    ensures var w := TargetCriterion(table, true, where, scoped, t);
            var view := Restrict(s.db, scoped, t);
            var db' := s.db[table := DeleteRows(Stored(s.db, table), w, s.db)];
            && view[table := DeleteRows(Stored(view, table), w, view)] == Restrict(db', scoped, t)
            && OthersUntouched(s.db, db', scoped, t) && Coherent(s.(db := db'), scoped, t)
  {
    var w := TargetCriterion(table, true, where, scoped, t);
    var rows := Stored(s.db, table);
    var kept := DeleteRows(rows, w, s.db);
    DeleteRowsOnView(rows, table, where, scoped, t, s.db);
    RestrictUpdated(s.db, table, kept, scoped, t);
    RestrictStored(s.db, scoped, t, table);
    KeptRowsAreStored(rows, w, s.db);
    if table in scoped {
      assert CoherentTable(rows, table, s.loaded, t);
    }
    ReplacedCoherent(s, table, kept, scoped, t);
  }

  lemma FlushOnView(s: State, added: seq<Obj>, dirty: seq<Obj>, deleted: seq<Obj>, scoped: set<Table>, t: Tenant)
    requires Coherent(s, scoped, t) && Permitted(Flush(added, dirty, deleted), s, scoped)
    ensures StepsOnView(s, Flush(added, dirty, deleted), scoped, t)
  {
    if FlushVerdict(MarksOf(added), MarksOf(dirty + deleted), scoped, Some(t)) == None {
      AllowedMarks(added, dirty + deleted, scoped, t);
      StampedAt(added, scoped, t);
      var stamped := StampAll(added, scoped, t);
      var loaded := s.loaded + Keys(added);
      assert Keys(stamped) == Keys(added);
      assert forall o :: o in dirty || o in deleted ==> o in dirty + deleted;
      forall i | 0 <= i < |dirty|
        ensures (dirty[i].table, dirty[i].id) in loaded
      {
        assert (dirty[i].table, dirty[i].id) in Keys(dirty);
      }
      forall i | 0 <= i < |deleted|
        ensures (deleted[i].table, deleted[i].id) in loaded
      {
        assert (deleted[i].table, deleted[i].id) in Keys(deleted);
      }
      InsertAllOnView(s.db, stamped, s.loaded, scoped, t);
      var inserted := InsertAll(s.db, stamped);
      ReplaceAllOnView(inserted, dirty, loaded, scoped, t);
      RemoveAllOnView(ReplaceAll(inserted, dirty), deleted, loaded, scoped, t);
    }
  }

  lemma StepOnView(s: State, op: Op, scoped: set<Table>, t: Tenant)
    requires Coherent(s, scoped, t) && Permitted(op, s, scoped)
    ensures StepsOnView(s, op, scoped, t)
  {
    match op
    case Read(query) => ReadOnView(s, query, scoped, t);
    case Load(table, where) => LoadOnView(s, table, where, scoped, t);
    case ColumnLoad(table, id) => ColumnLoadOnView(s, table, id, scoped, t);
    case RelationLoad(table, where) => LoadOnView(s, table, where, scoped, t);
    case BulkUpdate(table, where, assign) => BulkUpdateOnView(s, table, where, assign, scoped, t);
    case BulkDelete(table, where) => BulkDeleteOnView(s, table, where, scoped, t);
    case Flush(added, dirty, deleted) => FlushOnView(s, added, dirty, deleted, scoped, t);
  }

  // --- Runs ---

  function Run(s: State, ops: seq<Op>, scoped: set<Table>, t: Tenant): (State, seq<Outcome>)
    decreases ops
  {
    if ops == [] then (s, [])
    else
      var (s', outcome) := Step(s, ops[0], scoped, t);
      var (end, outcomes) := Run(s', ops[1..], scoped, t);
      (end, [outcome] + outcomes)
  }

  ghost predicate PermittedRun(s: State, ops: seq<Op>, scoped: set<Table>, t: Tenant)
    decreases ops
  {
    ops == [] || (Permitted(ops[0], s, scoped) && PermittedRun(Step(s, ops[0], scoped, t).0, ops[1..], scoped, t))
  }

  /** No run under one tenant changes a row of another. */
  lemma {:induction false} RunLeavesOthersUntouched(s: State, ops: seq<Op>, scoped: set<Table>, t: Tenant)
    requires Coherent(s, scoped, t) && PermittedRun(s, ops, scoped, t)
    ensures OthersUntouched(s.db, Run(s, ops, scoped, t).0.db, scoped, t)
    decreases ops
  {
    if ops != [] {
      StepOnView(s, ops[0], scoped, t);
      RunLeavesOthersUntouched(Step(s, ops[0], scoped, t).0, ops[1..], scoped, t);
    }
  }

  /** Two databases that agree on the tenant's view: same outcomes all along, same view at the end. */
  lemma {:induction false} NonInterference(s: State, s': State, ops: seq<Op>, scoped: set<Table>, t: Tenant)
    requires Coherent(s, scoped, t) && PermittedRun(s, ops, scoped, t)
    requires Coherent(s', scoped, t) && PermittedRun(s', ops, scoped, t)
    requires s.loaded == s'.loaded && Restrict(s.db, scoped, t) == Restrict(s'.db, scoped, t)
    ensures var (end, outcomes) := Run(s, ops, scoped, t);
            var (end', outcomes') := Run(s', ops, scoped, t);
            outcomes == outcomes' && Restrict(end.db, scoped, t) == Restrict(end'.db, scoped, t)
    decreases ops
  {
    if ops != [] {
      StepOnView(s, ops[0], scoped, t);
      StepOnView(s', ops[0], scoped, t);
      assert s.(db := Restrict(s.db, scoped, t)) == s'.(db := Restrict(s'.db, scoped, t));
      NonInterference(Step(s, ops[0], scoped, t).0, Step(s', ops[0], scoped, t).0, ops[1..], scoped, t);
    }
  }
}
