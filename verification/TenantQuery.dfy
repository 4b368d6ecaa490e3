/**
 A small relational algebra for the statements that reach the tenant guard, its
 denotational meaning over a database, and the rewriting that attaches the criterion
 `tenant_id == current tenant` to every scoped entity.

 The criterion of the leftmost entity goes to WHERE and the criterion of a joined entity
 goes to the ON clause of its join: for an outer join the two places are not the same.
 */
module TenantQuery {
  type Tenant = nat
  type Table = string

  /** A row of a table, a row of a derived table, or the all-NULL row of an outer join. */
  datatype Row = Null | Row(id: nat, tenant: Tenant, cells: seq<int>)

  /** One row per element of the FROM clause, leftmost first. */
  type Tuple = seq<Row>

  type Database = map<Table, seq<Row>>

  datatype Source =
    | Entity(table: Table)      // reached through the mapped class, or an alias of it
    | BareTable(table: Table)   // reached by naming the table only
    | Derived(query: Query)     // a subquery in FROM

  datatype From =
    | Scan(source: Source)
    | Join(left: From, right: Source, on: Cond, outer: bool)

  /** Conditions see the tuples of the enclosing queries (`env`) and their own tuple (`here`). */
  datatype Cond =
    | Test(holds: (Tuple, Tuple) -> bool)
    | OfTenant(slot: nat, tenant: Tenant)
    | SubqueryTest(query: Query, accepts: (Tuple, Tuple, seq<Row>) -> bool)  // EXISTS, IN, scalar comparison
    | And(first: Cond, second: Cond)
    | Not(cond: Cond)

  /** A list of subqueries. */
  datatype Queries = NoQueries | Also(first: Query, rest: Queries)

  /**
   `columns` are the FROM positions whose entity appears in the column list. `perRow` are the
   subqueries of the column list, and those of GROUP BY, HAVING and ORDER BY that look at a row: they
   are answered for every row, and `project` puts what it needs of the answers into the row. `once`
   are the subqueries answered once. `finish` stands for whatever is then done to the projected
   rows: grouping, aggregation, filtering of groups, ordering, DISTINCT, LIMIT.
   */
  datatype Query = Select(
    from: From, where: Cond, columns: set<nat>, perRow: Queries, project: (Tuple, Tuple, Answers) -> Row,
    once: Queries, finish: (seq<Row>, Answers) -> seq<Row>)

  type Answers = seq<seq<Row>>

  // --- Meaning ---

  predicate OwnedBy(row: Row, t: Tenant) {
    row.Row? && row.tenant == t
  }

  function Owned(rows: seq<Row>, t: Tenant): seq<Row> {
    if rows == [] then []
    else (if OwnedBy(rows[0], t) then [rows[0]] else []) + Owned(rows[1..], t)
  }

  function Stored(db: Database, table: Table): seq<Row> {
    if table in db then db[table] else []
  }

  function Eval(q: Query, db: Database, env: Tuple): seq<Row>
    decreases q, 3
  {
    q.finish(Project(q.project, q.perRow, Keep(Tuples(q.from, db, env), q.where, db, env), db, env),
             Answered(q.once, db, env))
  }

  function Project(project: (Tuple, Tuple, Answers) -> Row, perRow: Queries, tuples: seq<Tuple>, db: Database,
                   env: Tuple): seq<Row>
    decreases perRow, 2, |tuples|
  {
    if tuples == [] then []
    else
      [project(env, tuples[0], Answered(perRow, db, env + tuples[0]))]
      + Project(project, perRow, tuples[1..], db, env)
  }

  function Answered(queries: Queries, db: Database, env: Tuple): Answers
    decreases queries, 1
  {
    match queries
    case NoQueries => []
    case Also(first, rest) => [Eval(first, db, env)] + Answered(rest, db, env)
  }

  function Rows(s: Source, db: Database, env: Tuple): seq<Row>
    decreases s, 3
  {
    match s
    case Entity(table) => Stored(db, table)
    case BareTable(table) => Stored(db, table)
    case Derived(query) => Eval(query, db, env)
  }

  function Tuples(f: From, db: Database, env: Tuple): seq<Tuple>
    decreases f, 3
  {
    match f
    case Scan(source) => Singletons(Rows(source, db, env))
    case Join(left, right, on, outer) =>
      Attach(Tuples(left, db, env), Rows(right, db, env), on, outer, db, env)
  }

  function Singletons(rows: seq<Row>): seq<Tuple> {
    if rows == [] then [] else [[rows[0]]] + Singletons(rows[1..])
  }

  function Attach(tuples: seq<Tuple>, rows: seq<Row>, on: Cond, outer: bool, db: Database, env: Tuple): seq<Tuple>
    decreases on, 2, |tuples|
  {
    if tuples == [] then []
    else
      var matches := Matches(tuples[0], rows, on, db, env);
      (if matches == [] && outer then [tuples[0] + [Null]] else matches)
      + Attach(tuples[1..], rows, on, outer, db, env)
  }

  function Matches(tuple: Tuple, rows: seq<Row>, on: Cond, db: Database, env: Tuple): seq<Tuple>
    decreases on, 1, |rows|
  {
    if rows == [] then []
    else
      (if Holds(on, db, env, tuple + [rows[0]]) then [tuple + [rows[0]]] else [])
      + Matches(tuple, rows[1..], on, db, env)
  }

  function Keep(tuples: seq<Tuple>, where: Cond, db: Database, env: Tuple): seq<Tuple>
    decreases where, 1, |tuples|
  {
    if tuples == [] then []
    else
      (if Holds(where, db, env, tuples[0]) then [tuples[0]] else [])
      + Keep(tuples[1..], where, db, env)
  }

  predicate Holds(c: Cond, db: Database, env: Tuple, here: Tuple)
    decreases c, 0
  {
    match c
    case Test(holds) => holds(env, here)
    case OfTenant(slot, tenant) => slot < |here| && OwnedBy(here[slot], tenant)
    case SubqueryTest(query, accepts) => accepts(env, here, Eval(query, db, env + here))
    case And(first, second) => Holds(first, db, env, here) && Holds(second, db, env, here)
    case Not(cond) => !Holds(cond, db, env, here)
  }

  /** The database the current tenant is supposed to see: its own rows of scoped tables, all else untouched. */
  function Restrict(db: Database, scoped: set<Table>, t: Tenant): Database {
    map table | table in db :: if table in scoped then Owned(db[table], t) else db[table]
  }

  // --- The rewriting ---

  predicate IsScopedEntity(s: Source, scoped: set<Table>) {
    s.Entity? && s.table in scoped
  }

  function Width(f: From): nat {
    match f
    case Scan(_) => 1
    case Join(left, _, _, _) => Width(left) + 1
  }

  function Leftmost(f: From): Source {
    match f
    case Scan(source) => source
    case Join(left, _, _, _) => Leftmost(left)
  }

  function AddCriteria(q: Query, scoped: set<Table>, t: Tenant): Query
    decreases q
  {
    var where := AddCriteriaCond(q.where, scoped, t);
    Select(AddCriteriaFrom(q.from, scoped, t),
           if IsScopedEntity(Leftmost(q.from), scoped) then And(where, OfTenant(0, t)) else where,
           q.columns, AddCriteriaQueries(q.perRow, scoped, t), q.project,
           AddCriteriaQueries(q.once, scoped, t), q.finish)
  }

  function AddCriteriaQueries(queries: Queries, scoped: set<Table>, t: Tenant): Queries
    decreases queries
  {
    match queries
    case NoQueries => NoQueries
    case Also(first, rest) => Also(AddCriteria(first, scoped, t), AddCriteriaQueries(rest, scoped, t))
  }

  function AddCriteriaSource(s: Source, scoped: set<Table>, t: Tenant): Source
    decreases s
  {
    if s.Derived? then Derived(AddCriteria(s.query, scoped, t)) else s
  }

  function AddCriteriaFrom(f: From, scoped: set<Table>, t: Tenant): From
    decreases f
  {
    match f
    case Scan(source) => Scan(AddCriteriaSource(source, scoped, t))
    case Join(left, right, on, outer) =>
      var on' := AddCriteriaCond(on, scoped, t);
      Join(AddCriteriaFrom(left, scoped, t), AddCriteriaSource(right, scoped, t),
           if IsScopedEntity(right, scoped) then And(on', OfTenant(Width(left), t)) else on', outer)
  }

  function AddCriteriaCond(c: Cond, scoped: set<Table>, t: Tenant): Cond
    decreases c
  {
    match c
    case Test(_) => c
    case OfTenant(_, _) => c
    case SubqueryTest(query, accepts) => SubqueryTest(AddCriteria(query, scoped, t), accepts)
    case And(first, second) => And(AddCriteriaCond(first, scoped, t), AddCriteriaCond(second, scoped, t))
    case Not(cond) => Not(AddCriteriaCond(cond, scoped, t))
  }

  // --- Tables a statement mentions ---

  /** Every table, whether reached by entity or by name, at any depth. */
  function QueryTables(q: Query): set<Table>
    decreases q
  {
    FromTables(q.from) + CondTables(q.where) + QueriesTables(q.perRow) + QueriesTables(q.once)
  }

  function QueriesTables(queries: Queries): set<Table>
    decreases queries
  {
    match queries
    case NoQueries => {}
    case Also(first, rest) => QueryTables(first) + QueriesTables(rest)
  }

  function SourceTables(s: Source): set<Table>
    decreases s
  {
    if s.Derived? then QueryTables(s.query) else {s.table}
  }

  function FromTables(f: From): set<Table>
    decreases f
  {
    match f
    case Scan(source) => SourceTables(source)
    case Join(left, right, on, _) => FromTables(left) + SourceTables(right) + CondTables(on)
  }

  function CondTables(c: Cond): set<Table>
    decreases c
  {
    match c
    case Test(_) => {}
    case OfTenant(_, _) => {}
    case SubqueryTest(query, _) => QueryTables(query)
    case And(first, second) => CondTables(first) + CondTables(second)
    case Not(cond) => CondTables(cond)
  }

  /** Every scoped table is reached through its entity, at every depth. */
  predicate ViaEntities(q: Query, scoped: set<Table>)
    decreases q
  {
    && ViaEntitiesFrom(q.from, scoped) && ViaEntitiesCond(q.where, scoped)
    && ViaEntitiesQueries(q.perRow, scoped) && ViaEntitiesQueries(q.once, scoped)
  }

  predicate ViaEntitiesQueries(queries: Queries, scoped: set<Table>)
    decreases queries
  {
    match queries
    case NoQueries => true
    case Also(first, rest) => ViaEntities(first, scoped) && ViaEntitiesQueries(rest, scoped)
  }

  predicate ViaEntitiesSource(s: Source, scoped: set<Table>)
    decreases s
  {
    match s
    case Entity(_) => true
    case BareTable(table) => table !in scoped
    case Derived(query) => ViaEntities(query, scoped)
  }

  predicate ViaEntitiesFrom(f: From, scoped: set<Table>)
    decreases f
  {
    match f
    case Scan(source) => ViaEntitiesSource(source, scoped)
    case Join(left, right, on, _) =>
      ViaEntitiesFrom(left, scoped) && ViaEntitiesSource(right, scoped) && ViaEntitiesCond(on, scoped)
  }

  predicate ViaEntitiesCond(c: Cond, scoped: set<Table>)
    decreases c
  {
    match c
    case Test(_) => true
    case OfTenant(_, _) => true
    case SubqueryTest(query, _) => ViaEntities(query, scoped)
    case And(first, second) => ViaEntitiesCond(first, scoped) && ViaEntitiesCond(second, scoped)
    case Not(cond) => ViaEntitiesCond(cond, scoped)
  }

  // --- The rewriting preserves meaning ---

  /**
   The criteria turn a query on the whole database into the original query on the restricted
   one, whatever it nests: inner and outer joins, derived tables, correlated subqueries in ON and
   WHERE under any negation, in the column list, HAVING and ORDER BY, aggregates.
   */
  lemma {:induction false} CriteriaPreserveMeaning(q: Query, scoped: set<Table>, t: Tenant, db: Database, env: Tuple)
    requires ViaEntities(q, scoped)
    ensures Eval(AddCriteria(q, scoped, t), db, env) == Eval(q, Restrict(db, scoped, t), env)
    decreases q, 3
  {
    var view := Restrict(db, scoped, t);
    var q' := AddCriteria(q, scoped, t);
    var tuples := Tuples(q'.from, db, env);
    var where := AddCriteriaCond(q.where, scoped, t);
    FromPreserved(q.from, scoped, t, db, env);
    if IsScopedEntity(Leftmost(q.from), scoped) {
      KeepOfTenant(tuples, where, t, db, env);
    }
    KeepPreserved(Tuples(q.from, view, env), q.where, scoped, t, db, env);
    var kept := Keep(tuples, q'.where, db, env);
    assert kept == Keep(Tuples(q.from, view, env), q.where, view, env);
    ProjectPreserved(q.project, q.perRow, kept, scoped, t, db, env);
    AnswersPreserved(q.once, scoped, t, db, env);
  }

  lemma {:induction false} ProjectPreserved(project: (Tuple, Tuple, Answers) -> Row, perRow: Queries,
                                            tuples: seq<Tuple>, scoped: set<Table>, t: Tenant, db: Database, env: Tuple)
    requires ViaEntitiesQueries(perRow, scoped)
    ensures Project(project, AddCriteriaQueries(perRow, scoped, t), tuples, db, env)
            == Project(project, perRow, tuples, Restrict(db, scoped, t), env)
    decreases perRow, 2, |tuples|
  {
    if tuples != [] {
      AnswersPreserved(perRow, scoped, t, db, env + tuples[0]);
      ProjectPreserved(project, perRow, tuples[1..], scoped, t, db, env);
    }
  }

  lemma {:induction false} AnswersPreserved(queries: Queries, scoped: set<Table>, t: Tenant, db: Database, env: Tuple)
    requires ViaEntitiesQueries(queries, scoped)
    ensures Answered(AddCriteriaQueries(queries, scoped, t), db, env) == Answered(queries, Restrict(db, scoped, t), env)
    decreases queries, 1
  {
    match queries
    case NoQueries =>
    case Also(first, rest) =>
      CriteriaPreserveMeaning(first, scoped, t, db, env);
      AnswersPreserved(rest, scoped, t, db, env);
  }

  /** Tuples whose leftmost row belongs to `t`. */
  ghost function HeadOwned(tuples: seq<Tuple>, t: Tenant): seq<Tuple> {
    if tuples == [] then []
    else (if |tuples[0]| > 0 && OwnedBy(tuples[0][0], t) then [tuples[0]] else []) + HeadOwned(tuples[1..], t)
  }

  lemma {:induction false} FromPreserved(f: From, scoped: set<Table>, t: Tenant, db: Database, env: Tuple)
    requires ViaEntitiesFrom(f, scoped)
    ensures var tuples := Tuples(AddCriteriaFrom(f, scoped, t), db, env);
            && (forall tuple :: tuple in tuples ==> |tuple| == Width(f))
            && Tuples(f, Restrict(db, scoped, t), env)
               == if IsScopedEntity(Leftmost(f), scoped) then HeadOwned(tuples, t) else tuples
    decreases f, 3
  {
    match f
    case Scan(source) =>
      var rows := Rows(AddCriteriaSource(source, scoped, t), db, env);
      SourcePreserved(source, scoped, t, db, env);
      SingletonsOwned(rows, t);
    case Join(left, right, on, outer) =>
      var view := Restrict(db, scoped, t);
      var tuples := Tuples(AddCriteriaFrom(left, scoped, t), db, env);
      var rows := Rows(AddCriteriaSource(right, scoped, t), db, env);
      var on' := AddCriteriaCond(on, scoped, t);
      var guarded := if IsScopedEntity(right, scoped) then And(on', OfTenant(Width(left), t)) else on';
      FromPreserved(left, scoped, t, db, env);
      SourcePreserved(right, scoped, t, db, env);
      AttachPreserved(tuples, rows, IsScopedEntity(right, scoped), on, outer, Width(left), scoped, t, db, env);
      AttachWidth(tuples, Rows(right, view, env), on, outer, Width(left), t, view, env);
      AttachKeepsHead(tuples, Rows(right, view, env), on, outer, Width(left), t, view, env);
  }

  lemma {:induction false} SourcePreserved(s: Source, scoped: set<Table>, t: Tenant, db: Database, env: Tuple)
    requires ViaEntitiesSource(s, scoped)
    ensures var rows := Rows(AddCriteriaSource(s, scoped, t), db, env);
            Rows(s, Restrict(db, scoped, t), env) == if IsScopedEntity(s, scoped) then Owned(rows, t) else rows
    decreases s, 3
  {
    if s.Derived? {
      CriteriaPreserveMeaning(s.query, scoped, t, db, env);
    }
  }

  lemma SingletonsOwned(rows: seq<Row>, t: Tenant)
    ensures forall tuple :: tuple in Singletons(rows) ==> |tuple| == 1
    ensures Singletons(Owned(rows, t)) == HeadOwned(Singletons(rows), t)
  {
    if rows != [] {
      var rest := Owned(rows[1..], t);
      if OwnedBy(rows[0], t) {
        assert Owned(rows, t)[1..] == rest;
      } else {
        assert Owned(rows, t) == rest;
      }
      assert Singletons(rows)[1..] == Singletons(rows[1..]);
    }
  }

  /** A joined scoped entity: its criterion in ON acts as if the right operand had been filtered first. */
  lemma {:induction false} AttachPreserved(tuples: seq<Tuple>, rows: seq<Row>, filtered: bool, on: Cond, outer: bool,
                                           width: nat, scoped: set<Table>, t: Tenant, db: Database, env: Tuple)
    requires ViaEntitiesCond(on, scoped)
    requires forall tuple :: tuple in tuples ==> |tuple| == width
    ensures var on' := AddCriteriaCond(on, scoped, t);
            Attach(tuples, rows, if filtered then And(on', OfTenant(width, t)) else on', outer, db, env)
            == Attach(tuples, if filtered then Owned(rows, t) else rows, on, outer, Restrict(db, scoped, t), env)
    decreases on, 2, |tuples|
  {
    if tuples != [] {
      MatchesPreserved(tuples[0], rows, filtered, on, scoped, t, db, env);
      AttachPreserved(tuples[1..], rows, filtered, on, outer, width, scoped, t, db, env);
    }
  }

  lemma {:induction false} MatchesPreserved(tuple: Tuple, rows: seq<Row>, filtered: bool, on: Cond,
                                            scoped: set<Table>, t: Tenant, db: Database, env: Tuple)
    requires ViaEntitiesCond(on, scoped)
    ensures var on' := AddCriteriaCond(on, scoped, t);
            Matches(tuple, rows, if filtered then And(on', OfTenant(|tuple|, t)) else on', db, env)
            == Matches(tuple, if filtered then Owned(rows, t) else rows, on, Restrict(db, scoped, t), env)
    decreases on, 1, |rows|
  {
    if rows != [] {
      var here := tuple + [rows[0]];
      assert here[|tuple|] == rows[0];
      CondPreserved(on, scoped, t, db, env, here);
      MatchesPreserved(tuple, rows[1..], filtered, on, scoped, t, db, env);
      var on' := AddCriteriaCond(on, scoped, t);
      assert Holds(And(on', OfTenant(|tuple|, t)), db, env, here)
          <==> Holds(on', db, env, here) && OwnedBy(rows[0], t);
      if OwnedBy(rows[0], t) {
        assert Owned(rows, t)[1..] == Owned(rows[1..], t);
      } else {
        assert Owned(rows, t) == Owned(rows[1..], t);
      }
    }
  }

  lemma {:induction false} CondPreserved(c: Cond, scoped: set<Table>, t: Tenant, db: Database, env: Tuple, here: Tuple)
    requires ViaEntitiesCond(c, scoped)
    ensures Holds(AddCriteriaCond(c, scoped, t), db, env, here) == Holds(c, Restrict(db, scoped, t), env, here)
    decreases c, 0
  {
    match c
    case Test(_) =>
    case OfTenant(_, _) =>
    case SubqueryTest(query, _) => CriteriaPreserveMeaning(query, scoped, t, db, env + here);
    case And(first, second) =>
      CondPreserved(first, scoped, t, db, env, here);
      CondPreserved(second, scoped, t, db, env, here);
    case Not(cond) => CondPreserved(cond, scoped, t, db, env, here);
  }

  lemma {:induction false} KeepPreserved(tuples: seq<Tuple>, where: Cond, scoped: set<Table>, t: Tenant, db: Database,
                                         env: Tuple)
    requires ViaEntitiesCond(where, scoped)
    ensures Keep(tuples, AddCriteriaCond(where, scoped, t), db, env)
            == Keep(tuples, where, Restrict(db, scoped, t), env)
    decreases where, 1, |tuples|
  {
    if tuples != [] {
      CondPreserved(where, scoped, t, db, env, tuples[0]);
      KeepPreserved(tuples[1..], where, scoped, t, db, env);
    }
  }

  lemma {:induction false} AttachWidth(tuples: seq<Tuple>, rows: seq<Row>, on: Cond, outer: bool, width: nat,
                                       t: Tenant, db: Database, env: Tuple)
    requires width > 0 && forall tuple :: tuple in tuples ==> |tuple| == width
    ensures forall tuple :: tuple in Attach(tuples, rows, on, outer, db, env) ==> |tuple| == width + 1
    decreases |tuples|
  {
    if tuples != [] {
      MatchesHead(tuples[0], rows, on, t, db, env);
      AttachWidth(tuples[1..], rows, on, outer, width, t, db, env);
    }
  }

  /** Filtering the leftmost entity after the joins is filtering it before them. */
  lemma {:induction false} AttachKeepsHead(tuples: seq<Tuple>, rows: seq<Row>, on: Cond, outer: bool, width: nat,
                                           t: Tenant, db: Database, env: Tuple)
    requires width > 0 && forall tuple :: tuple in tuples ==> |tuple| == width
    ensures Attach(HeadOwned(tuples, t), rows, on, outer, db, env)
            == HeadOwned(Attach(tuples, rows, on, outer, db, env), t)
    decreases |tuples|
  {
    if tuples != [] {
      AttachKeepsHead(tuples[1..], rows, on, outer, width, t, db, env);
      AttachHead(tuples, rows, on, outer, t, db, env);
      if OwnedBy(tuples[0][0], t) {
        assert HeadOwned(tuples, t)[1..] == HeadOwned(tuples[1..], t);
      } else {
        assert HeadOwned(tuples, t) == HeadOwned(tuples[1..], t);
      }
    }
  }

  /** What the first tuple contributes is kept or dropped with it. */
  lemma AttachHead(tuples: seq<Tuple>, rows: seq<Row>, on: Cond, outer: bool, t: Tenant, db: Database, env: Tuple)
    requires tuples != [] && |tuples[0]| > 0
    ensures var matches := Matches(tuples[0], rows, on, db, env);
            var mine := if matches == [] && outer then [tuples[0] + [Null]] else matches;
            HeadOwned(Attach(tuples, rows, on, outer, db, env), t)
            == (if OwnedBy(tuples[0][0], t) then mine else [])
              + HeadOwned(Attach(tuples[1..], rows, on, outer, db, env), t)
  {
    var matches := Matches(tuples[0], rows, on, db, env);
    var mine := if matches == [] && outer then [tuples[0] + [Null]] else matches;
    MatchesHead(tuples[0], rows, on, t, db, env);
    HeadOwnedAppend(mine, Attach(tuples[1..], rows, on, outer, db, env), t);
    if matches == [] && outer {
      assert (tuples[0] + [Null])[0] == tuples[0][0];
      assert [tuples[0] + [Null]][1..] == [] && HeadOwned([], t) == [];
    }
  }

  lemma {:induction false} MatchesHead(tuple: Tuple, rows: seq<Row>, on: Cond, t: Tenant, db: Database, env: Tuple)
    requires |tuple| > 0
    ensures var matches := Matches(tuple, rows, on, db, env);
            && (forall m :: m in matches ==> |m| == |tuple| + 1)
            && HeadOwned(matches, t) == if OwnedBy(tuple[0], t) then matches else []
    decreases |rows|
  {
    if rows != [] {
      MatchesHead(tuple, rows[1..], on, t, db, env);
      var here := tuple + [rows[0]];
      assert here[0] == tuple[0];
      var matches := Matches(tuple, rows, on, db, env);
      if Holds(on, db, env, here) {
        assert matches[1..] == Matches(tuple, rows[1..], on, db, env);
      } else {
        assert matches == Matches(tuple, rows[1..], on, db, env);
      }
    }
  }

  lemma HeadOwnedAppend(a: seq<Tuple>, b: seq<Tuple>, t: Tenant)
    ensures HeadOwned(a + b, t) == HeadOwned(a, t) + HeadOwned(b, t)
  {
    if a == [] {
      assert a + b == b;
    } else {
      assert (a + b)[1..] == a[1..] + b;
      HeadOwnedAppend(a[1..], b, t);
    }
  }

  lemma {:induction false} KeepOfTenant(tuples: seq<Tuple>, where: Cond, t: Tenant, db: Database, env: Tuple)
    ensures Keep(tuples, And(where, OfTenant(0, t)), db, env) == Keep(HeadOwned(tuples, t), where, db, env)
    decreases |tuples|
  {
    if tuples != [] {
      KeepOfTenant(tuples[1..], where, t, db, env);
      assert Holds(And(where, OfTenant(0, t)), db, env, tuples[0])
          <==> Holds(where, db, env, tuples[0]) && |tuples[0]| > 0 && OwnedBy(tuples[0][0], t);
      if |tuples[0]| > 0 && OwnedBy(tuples[0][0], t) {
        assert HeadOwned(tuples, t)[1..] == HeadOwned(tuples[1..], t);
      } else {
        assert HeadOwned(tuples, t) == HeadOwned(tuples[1..], t);
      }
    }
  }

  /** A query that mentions no scoped table is left exactly as it was. */
  lemma {:induction false} UnscopedQueryUnchanged(q: Query, scoped: set<Table>, t: Tenant)
    requires QueryTables(q) !! scoped
    ensures AddCriteria(q, scoped, t) == q && ViaEntities(q, scoped)
    decreases q
  {
    UnscopedFromUnchanged(q.from, scoped, t);
    UnscopedCondUnchanged(q.where, scoped, t);
    UnscopedQueriesUnchanged(q.perRow, scoped, t);
    UnscopedQueriesUnchanged(q.once, scoped, t);
  }

  lemma {:induction false} UnscopedQueriesUnchanged(queries: Queries, scoped: set<Table>, t: Tenant)
    requires QueriesTables(queries) !! scoped
    ensures AddCriteriaQueries(queries, scoped, t) == queries && ViaEntitiesQueries(queries, scoped)
    decreases queries
  {
    match queries
    case NoQueries =>
    case Also(first, rest) =>
      UnscopedQueryUnchanged(first, scoped, t);
      UnscopedQueriesUnchanged(rest, scoped, t);
  }

  lemma {:induction false} UnscopedSourceUnchanged(s: Source, scoped: set<Table>, t: Tenant)
    requires SourceTables(s) !! scoped
    ensures AddCriteriaSource(s, scoped, t) == s && ViaEntitiesSource(s, scoped) && !IsScopedEntity(s, scoped)
    decreases s
  {
    if s.Derived? {
      UnscopedQueryUnchanged(s.query, scoped, t);
    } else {
      assert s.table in SourceTables(s);
    }
  }

  lemma {:induction false} UnscopedFromUnchanged(f: From, scoped: set<Table>, t: Tenant)
    requires FromTables(f) !! scoped
    ensures AddCriteriaFrom(f, scoped, t) == f && ViaEntitiesFrom(f, scoped) && !IsScopedEntity(Leftmost(f), scoped)
    decreases f
  {
    match f
    case Scan(source) => UnscopedSourceUnchanged(source, scoped, t);
    case Join(left, right, on, _) =>
      UnscopedFromUnchanged(left, scoped, t);
      UnscopedSourceUnchanged(right, scoped, t);
      UnscopedCondUnchanged(on, scoped, t);
  }

  lemma {:induction false} UnscopedCondUnchanged(c: Cond, scoped: set<Table>, t: Tenant)
    requires CondTables(c) !! scoped
    ensures AddCriteriaCond(c, scoped, t) == c && ViaEntitiesCond(c, scoped)
    decreases c
  {
    match c
    case Test(_) =>
    case OfTenant(_, _) =>
    case SubqueryTest(query, _) => UnscopedQueryUnchanged(query, scoped, t);
    case And(first, second) =>
      UnscopedCondUnchanged(first, scoped, t);
      UnscopedCondUnchanged(second, scoped, t);
    case Not(cond) => UnscopedCondUnchanged(cond, scoped, t);
  }

  /** The meaning of a query depends on the tables it mentions and on nothing else. */
  lemma {:induction false} OnlyMentionedTablesMatter(q: Query, db: Database, db': Database, env: Tuple)
    requires forall table :: table in QueryTables(q) ==> Stored(db, table) == Stored(db', table)
    ensures Eval(q, db, env) == Eval(q, db', env)
    decreases q, 3
  {
    FromFrame(q.from, db, db', env);
    KeepFrame(Tuples(q.from, db, env), q.where, db, db', env);
    ProjectFrame(q.project, q.perRow, Keep(Tuples(q.from, db, env), q.where, db, env), db, db', env);
    AnswersFrame(q.once, db, db', env);
  }

  lemma {:induction false} ProjectFrame(project: (Tuple, Tuple, Answers) -> Row, perRow: Queries, tuples: seq<Tuple>,
                                        db: Database, db': Database, env: Tuple)
    requires forall table :: table in QueriesTables(perRow) ==> Stored(db, table) == Stored(db', table)
    ensures Project(project, perRow, tuples, db, env) == Project(project, perRow, tuples, db', env)
    decreases perRow, 2, |tuples|
  {
    if tuples != [] {
      AnswersFrame(perRow, db, db', env + tuples[0]);
      ProjectFrame(project, perRow, tuples[1..], db, db', env);
    }
  }

  lemma {:induction false} AnswersFrame(queries: Queries, db: Database, db': Database, env: Tuple)
    requires forall table :: table in QueriesTables(queries) ==> Stored(db, table) == Stored(db', table)
    ensures Answered(queries, db, env) == Answered(queries, db', env)
    decreases queries, 1
  {
    match queries
    case NoQueries =>
    case Also(first, rest) =>
      OnlyMentionedTablesMatter(first, db, db', env);
      AnswersFrame(rest, db, db', env);
  }

  lemma {:induction false} SourceFrame(s: Source, db: Database, db': Database, env: Tuple)
    requires forall table :: table in SourceTables(s) ==> Stored(db, table) == Stored(db', table)
    ensures Rows(s, db, env) == Rows(s, db', env)
    decreases s, 3
  {
    if s.Derived? {
      OnlyMentionedTablesMatter(s.query, db, db', env);
    } else {
      assert s.table in SourceTables(s);
    }
  }

  lemma {:induction false} FromFrame(f: From, db: Database, db': Database, env: Tuple)
    requires forall table :: table in FromTables(f) ==> Stored(db, table) == Stored(db', table)
    ensures Tuples(f, db, env) == Tuples(f, db', env)
    decreases f, 3
  {
    match f
    case Scan(source) => SourceFrame(source, db, db', env);
    case Join(left, right, on, outer) =>
      FromFrame(left, db, db', env);
      SourceFrame(right, db, db', env);
      AttachFrame(Tuples(left, db, env), Rows(right, db, env), on, outer, db, db', env);
  }

  lemma {:induction false} AttachFrame(tuples: seq<Tuple>, rows: seq<Row>, on: Cond, outer: bool,
                                       db: Database, db': Database, env: Tuple)
    requires forall table :: table in CondTables(on) ==> Stored(db, table) == Stored(db', table)
    ensures Attach(tuples, rows, on, outer, db, env) == Attach(tuples, rows, on, outer, db', env)
    decreases on, 2, |tuples|
  {
    if tuples != [] {
      MatchesFrame(tuples[0], rows, on, db, db', env);
      AttachFrame(tuples[1..], rows, on, outer, db, db', env);
    }
  }

  lemma {:induction false} MatchesFrame(tuple: Tuple, rows: seq<Row>, on: Cond, db: Database, db': Database, env: Tuple)
    requires forall table :: table in CondTables(on) ==> Stored(db, table) == Stored(db', table)
    ensures Matches(tuple, rows, on, db, env) == Matches(tuple, rows, on, db', env)
    decreases on, 1, |rows|
  {
    if rows != [] {
      CondFrame(on, db, db', env, tuple + [rows[0]]);
      MatchesFrame(tuple, rows[1..], on, db, db', env);
    }
  }

  lemma {:induction false} KeepFrame(tuples: seq<Tuple>, where: Cond, db: Database, db': Database, env: Tuple)
    requires forall table :: table in CondTables(where) ==> Stored(db, table) == Stored(db', table)
    ensures Keep(tuples, where, db, env) == Keep(tuples, where, db', env)
    decreases where, 1, |tuples|
  {
    if tuples != [] {
      CondFrame(where, db, db', env, tuples[0]);
      KeepFrame(tuples[1..], where, db, db', env);
    }
  }

  lemma {:induction false} CondFrame(c: Cond, db: Database, db': Database, env: Tuple, here: Tuple)
    requires forall table :: table in CondTables(c) ==> Stored(db, table) == Stored(db', table)
    ensures Holds(c, db, env, here) == Holds(c, db', env, here)
    decreases c, 0
  {
    match c
    case Test(_) =>
    case OfTenant(_, _) =>
    case SubqueryTest(query, _) => OnlyMentionedTablesMatter(query, db, db', env + here);
    case And(first, second) =>
      CondFrame(first, db, db', env, here);
      CondFrame(second, db, db', env, here);
    case Not(cond) => CondFrame(cond, db, db', env, here);
  }
}
