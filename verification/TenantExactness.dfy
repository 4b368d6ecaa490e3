/**
 Exactly which queries the criteria protect. The refusal of bare tables does not run once a
 statement exposes one scoped entity, so a query can be accepted and still reach a scoped table
 by name only. The shape of a query decides: the criteria protect every query of that shape on
 every database if and only if no scoped table is reached by name, at any depth.
 */
module TenantExactness {
  import opened Wrappers
  import opened TenantQuery
  import opened TenantGuard

  // --- Shapes ---

  /** Same sources, joins, connectives and subqueries; tests, projections and aggregates may differ. */
  ghost predicate SameShape(q: Query, q': Query)
    decreases q
  {
    && SameShapeFrom(q.from, q'.from) && SameShapeCond(q.where, q'.where) && q.columns == q'.columns
    && SameShapeQueries(q.perRow, q'.perRow) && SameShapeQueries(q.once, q'.once)
  }

  ghost predicate SameShapeQueries(qs: Queries, qs': Queries)
    decreases qs
  {
    match qs
    case NoQueries => qs'.NoQueries?
    case Also(first, rest) => qs'.Also? && SameShape(first, qs'.first) && SameShapeQueries(rest, qs'.rest)
  }

  ghost predicate SameShapeSource(s: Source, s': Source)
    decreases s
  {
    if s.Derived? then s'.Derived? && SameShape(s.query, s'.query) else s == s'
  }

  ghost predicate SameShapeFrom(f: From, f': From)
    decreases f
  {
    match f
    case Scan(source) => f'.Scan? && SameShapeSource(source, f'.source)
    case Join(left, right, on, outer) =>
      f'.Join? && outer == f'.outer && SameShapeFrom(left, f'.left) && SameShapeSource(right, f'.right)
      && SameShapeCond(on, f'.on)
  }

  ghost predicate SameShapeCond(c: Cond, c': Cond)
    decreases c
  {
    match c
    case Test(_) => c'.Test?
    case OfTenant(_, _) => c == c'
    case SubqueryTest(query, _) => c'.SubqueryTest? && SameShape(query, c'.query)
    case And(first, second) => c'.And? && SameShapeCond(first, c'.first) && SameShapeCond(second, c'.second)
    case Not(cond) => c'.Not? && SameShapeCond(cond, c'.cond)
  }

  /** A query as an application writes it: the criteria have not been added yet. */
  ghost predicate Plain(q: Query)
    decreases q
  {
    PlainFrom(q.from) && PlainCond(q.where) && PlainQueries(q.perRow) && PlainQueries(q.once)
  }

  ghost predicate PlainQueries(qs: Queries)
    decreases qs
  {
    match qs
    case NoQueries => true
    case Also(first, rest) => Plain(first) && PlainQueries(rest)
  }

  ghost predicate PlainSource(s: Source)
    decreases s
  {
    s.Derived? ==> Plain(s.query)
  }

  ghost predicate PlainFrom(f: From)
    decreases f
  {
    match f
    case Scan(source) => PlainSource(source)
    case Join(left, right, on, _) => PlainFrom(left) && PlainSource(right) && PlainCond(on)
  }

  ghost predicate PlainCond(c: Cond)
    decreases c
  {
    match c
    case Test(_) => true
    case OfTenant(_, _) => false
    case SubqueryTest(query, _) => Plain(query)
    case And(first, second) => PlainCond(first) && PlainCond(second)
    case Not(cond) => PlainCond(cond)
  }

  /** On this database and this query, adding the criteria amounts to restricting the database. */
  ghost predicate Protected(q: Query, scoped: set<Table>, t: Tenant, db: Database) {
    Eval(AddCriteria(q, scoped, t), db, []) == Eval(q, Restrict(db, scoped, t), [])
  }

  lemma {:induction false} SameShapeViaEntities(q: Query, q': Query, scoped: set<Table>)
    requires SameShape(q, q')
    ensures ViaEntities(q, scoped) <==> ViaEntities(q', scoped)
    decreases q
  {
    SameShapeViaEntitiesFrom(q.from, q'.from, scoped);
    SameShapeViaEntitiesCond(q.where, q'.where, scoped);
    SameShapeViaEntitiesQueries(q.perRow, q'.perRow, scoped);
    SameShapeViaEntitiesQueries(q.once, q'.once, scoped);
  }

  lemma {:induction false} SameShapeViaEntitiesQueries(qs: Queries, qs': Queries, scoped: set<Table>)
    requires SameShapeQueries(qs, qs')
    ensures ViaEntitiesQueries(qs, scoped) <==> ViaEntitiesQueries(qs', scoped)
    decreases qs
  {
    match qs
    case NoQueries =>
    case Also(first, rest) =>
      SameShapeViaEntities(first, qs'.first, scoped);
      SameShapeViaEntitiesQueries(rest, qs'.rest, scoped);
  }

  lemma {:induction false} SameShapeViaEntitiesSource(s: Source, s': Source, scoped: set<Table>)
    requires SameShapeSource(s, s')
    ensures ViaEntitiesSource(s, scoped) <==> ViaEntitiesSource(s', scoped)
    decreases s
  {
    if s.Derived? {
      SameShapeViaEntities(s.query, s'.query, scoped);
    }
  }

  lemma {:induction false} SameShapeViaEntitiesFrom(f: From, f': From, scoped: set<Table>)
    requires SameShapeFrom(f, f')
    ensures ViaEntitiesFrom(f, scoped) <==> ViaEntitiesFrom(f', scoped)
    decreases f
  {
    match f
    case Scan(source) => SameShapeViaEntitiesSource(source, f'.source, scoped);
    case Join(left, right, on, _) =>
      SameShapeViaEntitiesFrom(left, f'.left, scoped);
      SameShapeViaEntitiesSource(right, f'.right, scoped);
      SameShapeViaEntitiesCond(on, f'.on, scoped);
  }

  lemma {:induction false} SameShapeViaEntitiesCond(c: Cond, c': Cond, scoped: set<Table>)
    requires SameShapeCond(c, c')
    ensures ViaEntitiesCond(c, scoped) <==> ViaEntitiesCond(c', scoped)
    decreases c
  {
    match c
    case Test(_) =>
    case OfTenant(_, _) =>
    case SubqueryTest(query, _) => SameShapeViaEntities(query, c'.query, scoped);
    case And(first, second) =>
      SameShapeViaEntitiesCond(first, c'.first, scoped);
      SameShapeViaEntitiesCond(second, c'.second, scoped);
    case Not(cond) => SameShapeViaEntitiesCond(cond, c'.cond, scoped);
  }

  // --- The probe: a query of the same shape that shows a leaked row ---

  const MARK := Row(0, 0, [])

  function Foreign(t: Tenant): Row {
    Row(1, t + 1, [])
  }

  /** One row of the tenant and one of another in every scoped table, one row in any other table. */
  function LeakyDatabase(tables: set<Table>, scoped: set<Table>, t: Tenant): Database {
    map table | table in tables :: if table in scoped then [Row(0, t, []), Foreign(t)] else [MARK]
  }

  /** The condition of the given shape that holds exactly when `p` holds of the tuple. */
  function Force(c: Cond, p: Tuple -> bool): Cond
    decreases c
  {
    match c
    case Test(_) => Test((env: Tuple, here: Tuple) => p(here))
    case OfTenant(_, _) => c
    case SubqueryTest(query, _) => SubqueryTest(query, (env: Tuple, here: Tuple, rows: seq<Row>) => p(here))
    case And(first, second) => And(Force(first, p), Force(second, (here: Tuple) => true))
    case Not(cond) => Not(Force(cond, (here: Tuple) => !p(here)))
  }

  function Always(c: Cond): Cond {
    Force(c, (here: Tuple) => true)
  }

  /** A query that marks each of its rows. */
  function Marked(from: From, where: Cond, columns: set<nat>, perRow: Queries, once: Queries): Query {
    Select(from, where, columns, perRow, (env: Tuple, here: Tuple, answers: Answers) => MARK,
           once, (rows: seq<Row>, answers: Answers) => rows)
  }

  predicate AnswersAt(answers: Answers, i: nat) {
    i < |answers| && answers[i] != []
  }

  /** A query that gives the mark exactly when for some row the `i`th of its row subqueries gives something. */
  function MarkedByRow(from: From, where: Cond, columns: set<nat>, perRow: Queries, once: Queries, i: nat): Query {
    Select(from, where, columns,
           perRow, (env: Tuple, here: Tuple, answers: Answers) => if AnswersAt(answers, i) then MARK else Null,
           once, (rows: seq<Row>, answers: Answers) => if MARK in rows then [MARK] else [])
  }

  /** A query that gives the mark exactly when the `i`th of its other subqueries gives something. */
  function MarkedOnce(from: From, where: Cond, columns: set<nat>, perRow: Queries, once: Queries, i: nat): Query {
    Select(from, where, columns, perRow, (env: Tuple, here: Tuple, answers: Answers) => MARK,
           once, (rows: seq<Row>, answers: Answers) => if AnswersAt(answers, i) then [MARK] else [])
  }

  function ConstQuery(q: Query): Query
    decreases q
  {
    Marked(ConstFrom(q.from), Always(q.where), q.columns, ConstQueries(q.perRow), ConstQueries(q.once))
  }

  function ConstQueries(qs: Queries): Queries
    decreases qs
  {
    match qs
    case NoQueries => NoQueries
    case Also(first, rest) => Also(ConstQuery(first), ConstQueries(rest))
  }

  function ConstSource(s: Source): Source
    decreases s
  {
    if s.Derived? then Derived(ConstQuery(s.query)) else s
  }

  function ConstFrom(f: From): From
    decreases f
  {
    match f
    case Scan(source) => Scan(ConstSource(source))
    case Join(left, right, on, outer) => Join(ConstFrom(left), ConstSource(right), Always(on), outer)
  }

  /** Nonempty with the criteria on the leaky database, empty without them on the restricted one. */
  function Probe(q: Query, scoped: set<Table>): Query
    decreases q
  {
    var perRow, once := ConstQueries(q.perRow), ConstQueries(q.once);
    if !ViaEntitiesFrom(q.from, scoped) then
      Marked(ProbeFrom(q.from, scoped), Force(q.where, (here: Tuple) => Exposed(q.from, scoped, here)), q.columns,
             perRow, once)
    else if !ViaEntitiesCond(q.where, scoped) then
      Marked(ConstFrom(q.from), Sense(q.where, true, scoped), q.columns, perRow, once)
    else if !ViaEntitiesQueries(q.perRow, scoped) then
      MarkedByRow(ConstFrom(q.from), Always(q.where), q.columns, ProbeQueries(q.perRow, scoped), once,
                  FirstLeak(q.perRow, scoped))
    else
      MarkedOnce(ConstFrom(q.from), Always(q.where), q.columns, perRow, ProbeQueries(q.once, scoped),
                 FirstLeak(q.once, scoped))
  }

  /** The first subquery that leaks. */
  function FirstLeak(qs: Queries, scoped: set<Table>): nat
    decreases qs
  {
    if qs.NoQueries? || !ViaEntities(qs.first, scoped) then 0 else 1 + FirstLeak(qs.rest, scoped)
  }

  function ProbeQueries(qs: Queries, scoped: set<Table>): Queries
    decreases qs
  {
    match qs
    case NoQueries => NoQueries
    case Also(first, rest) =>
      if !ViaEntities(first, scoped) then Also(Probe(first, scoped), ConstQueries(rest))
      else Also(ConstQuery(first), ProbeQueries(rest, scoped))
  }

  function ProbeSource(s: Source, scoped: set<Table>): Source
    decreases s
  {
    if s.Derived? then Derived(Probe(s.query, scoped)) else s
  }

  function ProbeFrom(f: From, scoped: set<Table>): From
    decreases f
  {
    match f
    case Scan(source) => Scan(ProbeSource(source, scoped))
    case Join(left, right, on, outer) =>
      if !ViaEntitiesFrom(left, scoped) then Join(ProbeFrom(left, scoped), ConstSource(right), Always(on), outer)
      else if !ViaEntitiesSource(right, scoped) then
        Join(ConstFrom(left), ProbeSource(right, scoped), Always(on), outer)
      else Join(ConstFrom(left), ConstSource(right), Sense(on, true, scoped), outer)
  }

  /** The condition of the given shape that is `b` where the probe leaks and `!b` where it does not. */
  function Sense(c: Cond, b: bool, scoped: set<Table>): Cond
    decreases c
  {
    match c
    case Test(_) => c
    case OfTenant(_, _) => c
    case SubqueryTest(query, _) =>
      SubqueryTest(Probe(query, scoped), (env: Tuple, here: Tuple, rows: seq<Row>) => (rows != []) == b)
    case And(first, second) =>
      if !ViaEntitiesCond(first, scoped) then And(Sense(first, b, scoped), Always(second))
      else And(Always(first), Sense(second, b, scoped))
    case Not(cond) => Not(Sense(cond, !b, scoped))
  }

  /** The row that betrays a source: the other tenant's row of a bare table, any row of a leaking subquery. */
  predicate ExposedRow(s: Source, row: Row) {
    if s.Derived? then row != Null else row.Row? && row.id == 1
  }

  predicate Exposed(f: From, scoped: set<Table>, tuple: Tuple) {
    && |tuple| >= Width(f)
    && match f
       case Scan(source) => ExposedRow(source, tuple[0])
       case Join(left, right, on, _) =>
         if !ViaEntitiesFrom(left, scoped) then Exposed(left, scoped, tuple[..Width(left)])
         else if !ViaEntitiesSource(right, scoped) then ExposedRow(right, tuple[Width(left)])
         else tuple[Width(left)] != Null
  }

  lemma {:induction false} ForceHolds(c: Cond, p: Tuple -> bool, scoped: set<Table>, t: Tenant, db: Database,
                                      env: Tuple, here: Tuple)
    requires PlainCond(c)
    ensures Holds(Force(c, p), db, env, here) <==> p(here)
    ensures Holds(AddCriteriaCond(Force(c, p), scoped, t), db, env, here) <==> p(here)
    ensures SameShapeCond(c, Force(c, p))
    decreases c
  {
    match c
    case Test(_) =>
    case SubqueryTest(query, _) => SameShapeReflexive(query);
    case And(first, second) =>
      ForceHolds(first, p, scoped, t, db, env, here);
      ForceHolds(second, (h: Tuple) => true, scoped, t, db, env, here);
    case Not(cond) => ForceHolds(cond, (h: Tuple) => !p(h), scoped, t, db, env, here);
  }

  lemma {:induction false} SameShapeReflexive(q: Query)
    ensures SameShape(q, q)
    decreases q
  {
    SameShapeReflexiveFrom(q.from);
    SameShapeReflexiveCond(q.where);
    SameShapeReflexiveQueries(q.perRow);
    SameShapeReflexiveQueries(q.once);
  }

  lemma {:induction false} SameShapeReflexiveQueries(qs: Queries)
    ensures SameShapeQueries(qs, qs)
    decreases qs
  {
    match qs
    case NoQueries =>
    case Also(first, rest) =>
      SameShapeReflexive(first);
      SameShapeReflexiveQueries(rest);
  }

  lemma {:induction false} SameShapeReflexiveFrom(f: From)
    ensures SameShapeFrom(f, f)
    decreases f
  {
    match f
    case Scan(source) => if source.Derived? { SameShapeReflexive(source.query); }
    case Join(left, right, on, _) =>
      SameShapeReflexiveFrom(left);
      if right.Derived? { SameShapeReflexive(right.query); }
      SameShapeReflexiveCond(on);
  }

  lemma {:induction false} SameShapeReflexiveCond(c: Cond)
    ensures SameShapeCond(c, c)
    decreases c
  {
    match c
    case Test(_) =>
    case OfTenant(_, _) =>
    case SubqueryTest(query, _) => SameShapeReflexive(query);
    case And(first, second) =>
      SameShapeReflexiveCond(first);
      SameShapeReflexiveCond(second);
    case Not(cond) => SameShapeReflexiveCond(cond);
  }

  // --- Membership in joins and selections ---

  lemma AttachHas(tuples: seq<Tuple>, rows: seq<Row>, on: Cond, outer: bool, db: Database, env: Tuple, tuple: Tuple,
                  row: Row)
    requires tuple in tuples && row in rows && Holds(on, db, env, tuple + [row])
    ensures tuple + [row] in Attach(tuples, rows, on, outer, db, env)
    decreases |tuples|
  {
    if tuples[0] == tuple {
      MatchesHas(tuple, rows, on, db, env, row);
    } else {
      AttachHas(tuples[1..], rows, on, outer, db, env, tuple, row);
    }
  }

  lemma MatchesHas(tuple: Tuple, rows: seq<Row>, on: Cond, db: Database, env: Tuple, row: Row)
    requires row in rows && Holds(on, db, env, tuple + [row])
    ensures tuple + [row] in Matches(tuple, rows, on, db, env)
    decreases |rows|
  {
    if rows[0] != row {
      MatchesHas(tuple, rows[1..], on, db, env, row);
    }
  }

  lemma AttachOnly(tuples: seq<Tuple>, rows: seq<Row>, on: Cond, outer: bool, db: Database, env: Tuple, joined: Tuple)
    requires joined in Attach(tuples, rows, on, outer, db, env)
    ensures |joined| > 0 && joined[..|joined| - 1] in tuples
    ensures var row := joined[|joined| - 1]; row == Null || (row in rows && Holds(on, db, env, joined))
    decreases |tuples|
  {
    var matches := Matches(tuples[0], rows, on, db, env);
    if joined in matches {
      MatchesOnly(tuples[0], rows, on, db, env, joined);
    } else if joined in Attach(tuples[1..], rows, on, outer, db, env) {
      AttachOnly(tuples[1..], rows, on, outer, db, env, joined);
    } else {
      assert joined == tuples[0] + [Null];
    }
  }

  lemma MatchesOnly(tuple: Tuple, rows: seq<Row>, on: Cond, db: Database, env: Tuple, joined: Tuple)
    requires joined in Matches(tuple, rows, on, db, env)
    ensures |joined| > 0 && joined[..|joined| - 1] == tuple
    ensures joined[|joined| - 1] in rows && Holds(on, db, env, joined)
    decreases |rows|
  {
    if joined in Matches(tuple, rows[1..], on, db, env) {
      MatchesOnly(tuple, rows[1..], on, db, env, joined);
    } else {
      assert joined == tuple + [rows[0]];
    }
  }

  lemma KeepHas(tuples: seq<Tuple>, where: Cond, db: Database, env: Tuple)
    ensures forall tuple :: tuple in Keep(tuples, where, db, env) <==> tuple in tuples && Holds(where, db, env, tuple)
    decreases |tuples|
  {
    if tuples != [] {
      KeepHas(tuples[1..], where, db, env);
    }
  }

  lemma KeepNone(tuples: seq<Tuple>, where: Cond, db: Database, env: Tuple)
    requires forall tuple :: tuple in tuples ==> !Holds(where, db, env, tuple)
    ensures Keep(tuples, where, db, env) == []
    decreases |tuples|
  {
    if tuples != [] {
      KeepNone(tuples[1..], where, db, env);
    }
  }

  lemma SingletonsHas(rows: seq<Row>)
    ensures forall row :: row in rows ==> [row] in Singletons(rows)
    ensures forall tuple :: tuple in Singletons(rows) ==> |tuple| == 1 && tuple[0] in rows
  {
  }

  // --- With the criteria, on the leaky database: the probe finds a row ---

  lemma {:induction false} ConstQueryHas(q: Query, tables: set<Table>, scoped: set<Table>, t: Tenant, env: Tuple)
    requires Plain(q) && QueryTables(q) <= tables
    ensures SameShape(q, ConstQuery(q))
    ensures MARK in Eval(AddCriteria(ConstQuery(q), scoped, t), LeakyDatabase(tables, scoped, t), env)
    decreases q, 3
  {
    var w := ConstFromHas(q.from, tables, scoped, t, env);
    ForceHolds(q.where, (here: Tuple) => true, scoped, t, LeakyDatabase(tables, scoped, t), env, w);
    ConstQueriesShape(q.perRow, tables, scoped, t, env);
    ConstQueriesShape(q.once, tables, scoped, t, env);
    SelectionHas(ConstQuery(q), scoped, t, LeakyDatabase(tables, scoped, t), env, w);
  }

  lemma {:induction false} ConstQueriesShape(qs: Queries, tables: set<Table>, scoped: set<Table>, t: Tenant, env: Tuple)
    requires PlainQueries(qs) && QueriesTables(qs) <= tables
    ensures SameShapeQueries(qs, ConstQueries(qs))
    decreases qs, 2
  {
    match qs
    case NoQueries =>
    case Also(first, rest) =>
      ConstQueryHas(first, tables, scoped, t, env);
      ConstQueriesShape(rest, tables, scoped, t, env);
  }

  /** A tuple that passes WHERE and starts with the tenant's row is kept. */
  lemma KeptHas(q: Query, scoped: set<Table>, t: Tenant, db: Database, env: Tuple, w: Tuple)
    requires w in Tuples(AddCriteriaFrom(q.from, scoped, t), db, env) && |w| > 0
    requires Holds(AddCriteriaCond(q.where, scoped, t), db, env, w)
    requires IsScopedEntity(Leftmost(q.from), scoped) ==> OwnedBy(w[0], t)
    ensures w in Keep(Tuples(AddCriteria(q, scoped, t).from, db, env), AddCriteria(q, scoped, t).where, db, env)
  {
    var q' := AddCriteria(q, scoped, t);
    KeepHas(Tuples(q'.from, db, env), q'.where, db, env);
    assert Holds(And(AddCriteriaCond(q.where, scoped, t), OfTenant(0, t)), db, env, w) <==> OwnedBy(w[0], t);
  }

  /** And yields a mark. */
  lemma SelectionHas(q: Query, scoped: set<Table>, t: Tenant, db: Database, env: Tuple, w: Tuple)
    requires q == Marked(q.from, q.where, q.columns, q.perRow, q.once)
    requires w in Tuples(AddCriteriaFrom(q.from, scoped, t), db, env) && |w| > 0
    requires Holds(AddCriteriaCond(q.where, scoped, t), db, env, w)
    requires IsScopedEntity(Leftmost(q.from), scoped) ==> OwnedBy(w[0], t)
    ensures MARK in Eval(AddCriteria(q, scoped, t), db, env)
  {
    var q' := AddCriteria(q, scoped, t);
    var kept := Keep(Tuples(q'.from, db, env), q'.where, db, env);
    KeptHas(q, scoped, t, db, env, w);
    assert kept != [];
    assert Project(q'.project, q'.perRow, kept, db, env)[0] == MARK;
  }

  lemma NothingKept(q: Query, db: Database, env: Tuple)
    requires q == Marked(q.from, q.where, q.columns, q.perRow, q.once)
    requires Keep(Tuples(q.from, db, env), q.where, db, env) == []
    ensures Eval(q, db, env) == []
  {
  }

  lemma ProjectHas(project: (Tuple, Tuple, Answers) -> Row, perRow: Queries, tuples: seq<Tuple>, db: Database,
                   env: Tuple, w: Tuple)
    requires w in tuples
    ensures project(env, w, Answered(perRow, db, env + w)) in Project(project, perRow, tuples, db, env)
    decreases |tuples|
  {
    if tuples[0] != w {
      ProjectHas(project, perRow, tuples[1..], db, env, w);
    }
  }

  lemma ProjectOnly(project: (Tuple, Tuple, Answers) -> Row, perRow: Queries, tuples: seq<Tuple>, db: Database,
                    env: Tuple, row: Row)
    requires row in Project(project, perRow, tuples, db, env)
    ensures exists w :: w in tuples && row == project(env, w, Answered(perRow, db, env + w))
    decreases |tuples|
  {
    if row == project(env, tuples[0], Answered(perRow, db, env + tuples[0])) {
      assert tuples[0] in tuples;
    } else {
      ProjectOnly(project, perRow, tuples[1..], db, env, row);
      var w :| w in tuples[1..] && row == project(env, w, Answered(perRow, db, env + w));
      assert w in tuples;
    }
  }

  lemma {:induction false} ConstSourceHas(s: Source, tables: set<Table>, scoped: set<Table>, t: Tenant, env: Tuple)
    returns (row: Row)
    requires PlainSource(s) && SourceTables(s) <= tables
    ensures SameShapeSource(s, ConstSource(s)) && row.Row?
    ensures row in Rows(AddCriteriaSource(ConstSource(s), scoped, t), LeakyDatabase(tables, scoped, t), env)
    ensures IsScopedEntity(s, scoped) ==> OwnedBy(row, t)
    decreases s, 3
  {
    if s.Derived? {
      ConstQueryHas(s.query, tables, scoped, t, env);
      row := MARK;
    } else {
      assert s.table in tables;
      row := LeakyDatabase(tables, scoped, t)[s.table][0];
    }
  }

  lemma {:induction false} ConstFromHas(f: From, tables: set<Table>, scoped: set<Table>, t: Tenant, env: Tuple)
    returns (w: Tuple)
    requires PlainFrom(f) && FromTables(f) <= tables
    ensures SameShapeFrom(f, ConstFrom(f)) && |w| == Width(f) == Width(ConstFrom(f))
    ensures IsScopedEntity(Leftmost(f), scoped) == IsScopedEntity(Leftmost(ConstFrom(f)), scoped)
    ensures w in Tuples(AddCriteriaFrom(ConstFrom(f), scoped, t), LeakyDatabase(tables, scoped, t), env)
    ensures IsScopedEntity(Leftmost(f), scoped) ==> OwnedBy(w[0], t)
    decreases f, 3
  {
    match f
    case Scan(source) =>
      var row := ConstSourceHas(source, tables, scoped, t, env);
      SingletonsHas(Rows(AddCriteriaSource(ConstSource(source), scoped, t), LeakyDatabase(tables, scoped, t), env));
      w := [row];
    case Join(left, right, on, outer) =>
      var u := ConstFromHas(left, tables, scoped, t, env);
      var row := ConstSourceHas(right, tables, scoped, t, env);
      ForceHolds(on, (here: Tuple) => true, scoped, t, LeakyDatabase(tables, scoped, t), env, u + [row]);
      w := JoinHas(ConstFrom(left), ConstSource(right), Always(on), outer, scoped, t, LeakyDatabase(tables, scoped, t),
                   env, u, row);
  }

  lemma JoinHas(left: From, right: Source, on: Cond, outer: bool, scoped: set<Table>, t: Tenant, db: Database,
                env: Tuple, u: Tuple, row: Row)
    returns (w: Tuple)
    requires u in Tuples(AddCriteriaFrom(left, scoped, t), db, env) && |u| == Width(left)
    requires row in Rows(AddCriteriaSource(right, scoped, t), db, env)
    requires Holds(AddCriteriaCond(on, scoped, t), db, env, u + [row])
    requires IsScopedEntity(right, scoped) ==> OwnedBy(row, t)
    ensures w == u + [row] && w in Tuples(AddCriteriaFrom(Join(left, right, on, outer), scoped, t), db, env)
  {
    w := u + [row];
    var on' := AddCriteriaCond(on, scoped, t);
    assert w[Width(left)] == row;
    assert Holds(And(on', OfTenant(Width(left), t)), db, env, w) <==> Holds(on', db, env, w) && OwnedBy(row, t);
    AttachHas(Tuples(AddCriteriaFrom(left, scoped, t), db, env), Rows(AddCriteriaSource(right, scoped, t), db, env),
              if IsScopedEntity(right, scoped) then And(on', OfTenant(Width(left), t)) else on',
              outer, db, env, u, row);
  }

  lemma {:induction false} ProbeHas(q: Query, tables: set<Table>, scoped: set<Table>, t: Tenant, env: Tuple)
    requires Plain(q) && QueryTables(q) <= tables && !ViaEntities(q, scoped)
    ensures SameShape(q, Probe(q, scoped))
    ensures MARK in Eval(AddCriteria(Probe(q, scoped), scoped, t), LeakyDatabase(tables, scoped, t), env)
    decreases q, 3
  {
    var db := LeakyDatabase(tables, scoped, t);
    if !ViaEntitiesFrom(q.from, scoped) {
      var w := ProbeFromHas(q.from, tables, scoped, t, env);
      ForceHolds(q.where, (here: Tuple) => Exposed(q.from, scoped, here), scoped, t, db, env, w);
      SelectionHas(Probe(q, scoped), scoped, t, db, env, w);
    } else if !ViaEntitiesCond(q.where, scoped) {
      var w := ConstFromHas(q.from, tables, scoped, t, env);
      SenseHas(q.where, true, tables, scoped, t, env, w);
      SelectionHas(Probe(q, scoped), scoped, t, db, env, w);
    } else if !ViaEntitiesQueries(q.perRow, scoped) {
      ProbeByRowHas(q, tables, scoped, t, env);
    } else {
      ProbeOnceHas(q, tables, scoped, t, env);
    }
    ConstQueriesShape(q.perRow, tables, scoped, t, env);
    ConstQueriesShape(q.once, tables, scoped, t, env);
  }

  lemma {:induction false} ProbeByRowHas(q: Query, tables: set<Table>, scoped: set<Table>, t: Tenant, env: Tuple)
    requires Plain(q) && QueryTables(q) <= tables && ViaEntitiesFrom(q.from, scoped) && ViaEntitiesCond(q.where, scoped)
    requires !ViaEntitiesQueries(q.perRow, scoped)
    ensures SameShapeFrom(q.from, ConstFrom(q.from)) && SameShapeCond(q.where, Always(q.where))
    ensures SameShapeQueries(q.perRow, ProbeQueries(q.perRow, scoped))
    ensures MARK in Eval(AddCriteria(Probe(q, scoped), scoped, t), LeakyDatabase(tables, scoped, t), env)
    decreases q, 2
  {
    var db := LeakyDatabase(tables, scoped, t);
    var q' := AddCriteria(Probe(q, scoped), scoped, t);
    var w := ConstFromHas(q.from, tables, scoped, t, env);
    ForceHolds(q.where, (here: Tuple) => true, scoped, t, db, env, w);
    KeptHas(Probe(q, scoped), scoped, t, db, env, w);
    ProbeQueriesHas(q.perRow, tables, scoped, t, env + w);
    ProjectHas(q'.project, q'.perRow, Keep(Tuples(q'.from, db, env), q'.where, db, env), db, env, w);
  }

  lemma {:induction false} ProbeOnceHas(q: Query, tables: set<Table>, scoped: set<Table>, t: Tenant, env: Tuple)
    requires Plain(q) && QueryTables(q) <= tables && ViaEntitiesFrom(q.from, scoped) && ViaEntitiesCond(q.where, scoped)
    requires ViaEntitiesQueries(q.perRow, scoped) && !ViaEntitiesQueries(q.once, scoped)
    ensures SameShapeFrom(q.from, ConstFrom(q.from)) && SameShapeCond(q.where, Always(q.where))
    ensures SameShapeQueries(q.once, ProbeQueries(q.once, scoped))
    ensures MARK in Eval(AddCriteria(Probe(q, scoped), scoped, t), LeakyDatabase(tables, scoped, t), env)
    decreases q, 2
  {
    var w := ConstFromHas(q.from, tables, scoped, t, env);
    ForceHolds(q.where, (here: Tuple) => true, scoped, t, LeakyDatabase(tables, scoped, t), env, w);
    ProbeQueriesHas(q.once, tables, scoped, t, env);
  }

  lemma {:induction false} ProbeQueriesHas(qs: Queries, tables: set<Table>, scoped: set<Table>, t: Tenant, env: Tuple)
    requires PlainQueries(qs) && QueriesTables(qs) <= tables && !ViaEntitiesQueries(qs, scoped)
    ensures SameShapeQueries(qs, ProbeQueries(qs, scoped))
    ensures AnswersAt(Answered(AddCriteriaQueries(ProbeQueries(qs, scoped), scoped, t),
                               LeakyDatabase(tables, scoped, t), env),
                      FirstLeak(qs, scoped))
    decreases qs, 2
  {
    if !ViaEntities(qs.first, scoped) {
      ProbeHas(qs.first, tables, scoped, t, env);
      ConstQueriesShape(qs.rest, tables, scoped, t, env);
    } else {
      ConstQueryHas(qs.first, tables, scoped, t, env);
      ProbeQueriesHas(qs.rest, tables, scoped, t, env);
    }
  }

  lemma {:induction false} ProbeSourceHas(s: Source, tables: set<Table>, scoped: set<Table>, t: Tenant, env: Tuple)
    returns (row: Row)
    requires PlainSource(s) && SourceTables(s) <= tables && !ViaEntitiesSource(s, scoped)
    ensures SameShapeSource(s, ProbeSource(s, scoped)) && ExposedRow(s, row)
    ensures row in Rows(AddCriteriaSource(ProbeSource(s, scoped), scoped, t), LeakyDatabase(tables, scoped, t), env)
    decreases s, 3
  {
    if s.Derived? {
      ProbeHas(s.query, tables, scoped, t, env);
      row := MARK;
    } else {
      assert s.table in tables && s.table in scoped;
      row := LeakyDatabase(tables, scoped, t)[s.table][1];
    }
  }

  lemma {:induction false} ProbeFromHas(f: From, tables: set<Table>, scoped: set<Table>, t: Tenant, env: Tuple)
    returns (w: Tuple)
    requires PlainFrom(f) && FromTables(f) <= tables && !ViaEntitiesFrom(f, scoped)
    ensures SameShapeFrom(f, ProbeFrom(f, scoped)) && |w| == Width(f) == Width(ProbeFrom(f, scoped))
    ensures IsScopedEntity(Leftmost(f), scoped) == IsScopedEntity(Leftmost(ProbeFrom(f, scoped)), scoped)
    ensures w in Tuples(AddCriteriaFrom(ProbeFrom(f, scoped), scoped, t), LeakyDatabase(tables, scoped, t), env)
    ensures Exposed(f, scoped, w)
    ensures IsScopedEntity(Leftmost(f), scoped) ==> OwnedBy(w[0], t)
    decreases f, 3
  {
    var db := LeakyDatabase(tables, scoped, t);
    match f
    case Scan(source) =>
      var row := ProbeSourceHas(source, tables, scoped, t, env);
      SingletonsHas(Rows(AddCriteriaSource(ProbeSource(source, scoped), scoped, t), db, env));
      w := [row];
    case Join(left, right, on, outer) =>
      if !ViaEntitiesFrom(left, scoped) {
        var u := ProbeFromHas(left, tables, scoped, t, env);
        var row := ConstSourceHas(right, tables, scoped, t, env);
        ForceHolds(on, (here: Tuple) => true, scoped, t, db, env, u + [row]);
        w := JoinHas(ProbeFrom(left, scoped), ConstSource(right), Always(on), outer, scoped, t, db, env, u, row);
        assert w[..Width(left)] == u;
      } else if !ViaEntitiesSource(right, scoped) {
        var u := ConstFromHas(left, tables, scoped, t, env);
        var row := ProbeSourceHas(right, tables, scoped, t, env);
        ForceHolds(on, (here: Tuple) => true, scoped, t, db, env, u + [row]);
        w := JoinHas(ConstFrom(left), ProbeSource(right, scoped), Always(on), outer, scoped, t, db, env, u, row);
      } else {
        var u := ConstFromHas(left, tables, scoped, t, env);
        var row := ConstSourceHas(right, tables, scoped, t, env);
        SenseHas(on, true, tables, scoped, t, env, u + [row]);
        w := JoinHas(ConstFrom(left), ConstSource(right), Sense(on, true, scoped), outer, scoped, t, db, env, u, row);
      }
  }

  lemma {:induction false} SenseHas(c: Cond, b: bool, tables: set<Table>, scoped: set<Table>, t: Tenant, env: Tuple,
                                    here: Tuple)
    requires PlainCond(c) && CondTables(c) <= tables && !ViaEntitiesCond(c, scoped)
    ensures SameShapeCond(c, Sense(c, b, scoped))
    ensures Holds(AddCriteriaCond(Sense(c, b, scoped), scoped, t), LeakyDatabase(tables, scoped, t), env, here) == b
    decreases c, 0
  {
    var db := LeakyDatabase(tables, scoped, t);
    match c
    case SubqueryTest(query, _) => ProbeHas(query, tables, scoped, t, env + here);
    case And(first, second) =>
      if !ViaEntitiesCond(first, scoped) {
        SenseHas(first, b, tables, scoped, t, env, here);
        ForceHolds(second, (h: Tuple) => true, scoped, t, db, env, here);
      } else {
        ForceHolds(first, (h: Tuple) => true, scoped, t, db, env, here);
        SenseHas(second, b, tables, scoped, t, env, here);
      }
    case Not(cond) => SenseHas(cond, !b, tables, scoped, t, env, here);
  }

  // --- Without them, on the restricted database: it finds none ---

  function View(tables: set<Table>, scoped: set<Table>, t: Tenant): Database {
    Restrict(LeakyDatabase(tables, scoped, t), scoped, t)
  }

  lemma TuplesWidth(f: From, db: Database, env: Tuple)
    ensures forall tuple :: tuple in Tuples(f, db, env) ==> |tuple| == Width(f)
    decreases f
  {
    match f
    case Scan(source) => SingletonsHas(Rows(source, db, env));
    case Join(left, right, on, outer) =>
      TuplesWidth(left, db, env);
      forall tuple | tuple in Tuples(f, db, env)
        ensures |tuple| == Width(f)
      {
        AttachOnly(Tuples(left, db, env), Rows(right, db, env), on, outer, db, env, tuple);
      }
  }

  lemma {:induction false} ProbeHidden(q: Query, tables: set<Table>, scoped: set<Table>, t: Tenant, env: Tuple)
    requires Plain(q) && QueryTables(q) <= tables && !ViaEntities(q, scoped)
    ensures Eval(Probe(q, scoped), View(tables, scoped, t), env) == []
    decreases q, 3
  {
    if !ViaEntitiesFrom(q.from, scoped) || !ViaEntitiesCond(q.where, scoped) {
      ProbeRowsHidden(q, tables, scoped, t, env);
    } else if !ViaEntitiesQueries(q.perRow, scoped) {
      ProbeByRowHidden(q, tables, scoped, t, env);
    } else {
      ProbeQueriesHidden(q.once, tables, scoped, t, env);
    }
  }

  lemma {:induction false} ProbeRowsHidden(q: Query, tables: set<Table>, scoped: set<Table>, t: Tenant, env: Tuple)
    requires Plain(q) && QueryTables(q) <= tables
             && !(ViaEntitiesFrom(q.from, scoped) && ViaEntitiesCond(q.where, scoped))
    ensures Eval(Probe(q, scoped), View(tables, scoped, t), env) == []
    decreases q, 2
  {
    var view := View(tables, scoped, t);
    var probe := Probe(q, scoped);
    var tuples := Tuples(probe.from, view, env);
    forall tuple | tuple in tuples
      ensures !Holds(probe.where, view, env, tuple)
    {
      if !ViaEntitiesFrom(q.from, scoped) {
        ProbeFromHidden(q.from, tables, scoped, t, env, tuple);
        ForceHolds(q.where, (here: Tuple) => Exposed(q.from, scoped, here), scoped, t, view, env, tuple);
      } else {
        SenseHidden(q.where, true, tables, scoped, t, env, tuple);
      }
    }
    KeepNone(tuples, probe.where, view, env);
    NothingKept(probe, view, env);
  }

  lemma {:induction false} ProbeByRowHidden(q: Query, tables: set<Table>, scoped: set<Table>, t: Tenant, env: Tuple)
    requires Plain(q) && QueryTables(q) <= tables && ViaEntitiesFrom(q.from, scoped) && ViaEntitiesCond(q.where, scoped)
    requires !ViaEntitiesQueries(q.perRow, scoped)
    ensures Eval(Probe(q, scoped), View(tables, scoped, t), env) == []
    decreases q, 2
  {
    var view := View(tables, scoped, t);
    var probe := Probe(q, scoped);
    var kept := Keep(Tuples(probe.from, view, env), probe.where, view, env);
    var rows := Project(probe.project, probe.perRow, kept, view, env);
    if MARK in rows {
      ProjectOnly(probe.project, probe.perRow, kept, view, env, MARK);
      var w :| w in kept && MARK == probe.project(env, w, Answered(probe.perRow, view, env + w));
      ProbeQueriesHidden(q.perRow, tables, scoped, t, env + w);
      assert false;
    }
  }

  lemma {:induction false} ProbeQueriesHidden(qs: Queries, tables: set<Table>, scoped: set<Table>, t: Tenant,
                                              env: Tuple)
    requires PlainQueries(qs) && QueriesTables(qs) <= tables && !ViaEntitiesQueries(qs, scoped)
    ensures !AnswersAt(Answered(ProbeQueries(qs, scoped), View(tables, scoped, t), env), FirstLeak(qs, scoped))
    decreases qs, 2
  {
    if !ViaEntities(qs.first, scoped) {
      ProbeHidden(qs.first, tables, scoped, t, env);
    } else {
      ProbeQueriesHidden(qs.rest, tables, scoped, t, env);
    }
  }

  lemma {:induction false} ProbeSourceHidden(s: Source, tables: set<Table>, scoped: set<Table>, t: Tenant, env: Tuple,
                                             row: Row)
    requires PlainSource(s) && SourceTables(s) <= tables && !ViaEntitiesSource(s, scoped)
    requires row in Rows(ProbeSource(s, scoped), View(tables, scoped, t), env)
    ensures !ExposedRow(s, row)
    decreases s, 3
  {
    if s.Derived? {
      ProbeHidden(s.query, tables, scoped, t, env);
    } else {
      assert s.table in tables;
      OwnedOfLeaky(t);
    }
  }

  lemma OwnedOfLeaky(t: Tenant)
    ensures Owned([Row(0, t, []), Foreign(t)], t) == [Row(0, t, [])]
  {
    assert [Row(0, t, []), Foreign(t)][1..] == [Foreign(t)];
    assert Owned([Foreign(t)], t) == [];
  }

  lemma {:induction false} ProbeFromHidden(f: From, tables: set<Table>, scoped: set<Table>, t: Tenant, env: Tuple,
                                           tuple: Tuple)
    requires PlainFrom(f) && FromTables(f) <= tables && !ViaEntitiesFrom(f, scoped)
    requires tuple in Tuples(ProbeFrom(f, scoped), View(tables, scoped, t), env)
    ensures !Exposed(f, scoped, tuple)
    decreases f, 3
  {
    var view := View(tables, scoped, t);
    match f
    case Scan(source) =>
      SingletonsHas(Rows(ProbeSource(source, scoped), view, env));
      ProbeSourceHidden(source, tables, scoped, t, env, tuple[0]);
    case Join(left, right, on, outer) =>
      var probe := ProbeFrom(f, scoped);
      TuplesWidth(probe.left, view, env);
      AttachOnly(Tuples(probe.left, view, env), Rows(probe.right, view, env), probe.on, outer, view, env, tuple);
      ProbeWidth(left, scoped);
      if !ViaEntitiesFrom(left, scoped) {
        ProbeFromHidden(left, tables, scoped, t, env, tuple[..Width(left)]);
      } else if !ViaEntitiesSource(right, scoped) {
        if tuple[Width(left)] != Null {
          ProbeSourceHidden(right, tables, scoped, t, env, tuple[Width(left)]);
        }
      } else {
        SenseHidden(on, true, tables, scoped, t, env, tuple);
      }
  }

  lemma ProbeWidth(f: From, scoped: set<Table>)
    ensures Width(ProbeFrom(f, scoped)) == Width(ConstFrom(f)) == Width(f)
    decreases f
  {
    match f
    case Scan(_) =>
    case Join(left, _, _, _) => ProbeWidth(left, scoped);
  }

  lemma {:induction false} SenseHidden(c: Cond, b: bool, tables: set<Table>, scoped: set<Table>, t: Tenant, env: Tuple,
                                       here: Tuple)
    requires PlainCond(c) && CondTables(c) <= tables && !ViaEntitiesCond(c, scoped)
    ensures Holds(Sense(c, b, scoped), View(tables, scoped, t), env, here) == !b
    decreases c, 0
  {
    var view := View(tables, scoped, t);
    match c
    case SubqueryTest(query, _) => ProbeHidden(query, tables, scoped, t, env + here);
    case And(first, second) =>
      if !ViaEntitiesCond(first, scoped) {
        SenseHidden(first, b, tables, scoped, t, env, here);
        ForceHolds(second, (h: Tuple) => true, scoped, t, view, env, here);
      } else {
        ForceHolds(first, (h: Tuple) => true, scoped, t, view, env, here);
        SenseHidden(second, b, tables, scoped, t, env, here);
      }
    case Not(cond) => SenseHidden(cond, !b, tables, scoped, t, env, here);
  }

  // --- The exact condition ---

  /**
   The criteria protect every query of this shape on every database iff scoped tables are reached as
   entities only.
   */
  lemma {:induction false} ProtectedIffViaEntities(q: Query, scoped: set<Table>, t: Tenant)
    requires Plain(q)
    ensures ViaEntities(q, scoped) <==> forall q', db :: SameShape(q, q') ==> Protected(q', scoped, t, db)
  {
    if ViaEntities(q, scoped) {
      forall q', db | SameShape(q, q')
        ensures Protected(q', scoped, t, db)
      {
        SameShapeViaEntities(q, q', scoped);
        CriteriaPreserveMeaning(q', scoped, t, db, []);
      }
    } else {
      var tables := QueryTables(q);
      var probe, db := Probe(q, scoped), LeakyDatabase(tables, scoped, t);
      ProbeHas(q, tables, scoped, t, []);
      ProbeHidden(q, tables, scoped, t, []);
      assert SameShape(q, probe) && !Protected(probe, scoped, t, db);
    }
  }

  /** An entity joined with a table named only. */
  function BareJoin(entity: Table, bare: Table): Query {
    var everything := Test((env: Tuple, here: Tuple) => true);
    Marked(Join(Scan(Entity(entity)), BareTable(bare), everything, false), everything, {0}, NoQueries, NoQueries)
  }

  lemma TableIsItsProbe(s: Source, scoped: set<Table>)
    requires !s.Derived?
    ensures ProbeSource(s, scoped) == s
  {
  }

  lemma BareJoinShape(entity: Table, bare: Table, scoped: set<Table>)
    requires bare in scoped
    ensures Plain(BareJoin(entity, bare)) && !ViaEntities(BareJoin(entity, bare), scoped)
    ensures Probe(BareJoin(entity, bare), scoped).columns == {0}
    ensures Probe(BareJoin(entity, bare), scoped).from
            == Join(Scan(Entity(entity)), BareTable(bare), Always(Test((env: Tuple, here: Tuple) => true)), false)
  {
    var q := BareJoin(entity, bare);
    assert PlainFrom(Scan(Entity(entity))) && PlainSource(BareTable(bare)) && PlainCond(q.where)
      && PlainCond(q.from.on);
    assert PlainFrom(q.from) && PlainQueries(NoQueries);
    assert !ViaEntitiesSource(BareTable(bare), scoped) && ViaEntitiesSource(Entity(entity), scoped);
    assert ViaEntitiesFrom(Scan(Entity(entity)), scoped) && !ViaEntitiesFrom(q.from, scoped);
    assert ConstFrom(Scan(Entity(entity))) == Scan(Entity(entity));
    TableIsItsProbe(BareTable(bare), scoped);
  }

  /** Such shapes do get through: one scoped entity in the column list is enough to skip the refusal. */
  lemma AcceptedQueryCanLeak(entity: Table, bare: Table, scoped: set<Table>, t: Tenant)
    requires entity in scoped && bare in scoped
    ensures exists q, db ::
              && Guarded(SelectStmt(q), false, scoped, Some(t)) == Ok(SelectStmt(AddCriteria(q, scoped, t)))
              && !Protected(q, scoped, t, db)
  {
    var q := BareJoin(entity, bare);
    BareJoinShape(entity, bare, scoped);
    var tables := QueryTables(q);
    var probe, db := Probe(q, scoped), LeakyDatabase(tables, scoped, t);
    ProbeHas(q, tables, scoped, t, []);
    ProbeHidden(q, tables, scoped, t, []);
    assert !Protected(probe, scoped, t, db);
    assert ColumnEntities(Scan(Entity(entity)), {0}) == {entity};
    assert entity in TopMappers(SelectStmt(probe)) * scoped;
  }
}
