/**
 Consulting the audit log page by page. The cursor is the position `(occurred_at, id)` of the last
 row returned, in padded URL-safe base64; pages are read from a table that may grow meanwhile.
 */
module AuditPaging {
  import opened Wrappers
  import opened Base64Url

  datatype Event = Event(id: nat, at: int, actor: Option<nat>, action: string, payload: seq<int>)

  type Table = seq<Event>

  datatype Cursor = Cursor(at: int, id: nat)

  datatype Filters = Filters(action: Option<string>, actor: Option<nat>, from: Option<int>, to: Option<int>)

  datatype Page = Page(items: seq<Event>, nextCursor: Option<string>)

  datatype PageError = InvalidCursor

  // --- Cursors ---

  const BAR: Byte := 124

  /** How instants and identifiers are written and read. */
  datatype Format = Format(
    showTime: int -> seq<Byte>, readTime: seq<Byte> -> Option<int>,
    showId: nat -> seq<Byte>, readId: seq<Byte> -> Option<nat>)
  {
    ghost predicate Valid() {
      && (forall at :: readTime(showTime(at)) == Some(at))
      && (forall id: nat :: readId(showId(id)) == Some(id) && BAR !in showId(id))
    }
  }

  function EncodeCursor(fmt: Format, at: int, id: nat): string {
    EncodePadded(fmt.showTime(at) + [BAR] + fmt.showId(id))
  }

  /** Where the last bar is. */
  function LastBar(raw: seq<Byte>): Option<nat> {
    if raw == [] then None
    else if raw[|raw| - 1] == BAR then Some(|raw| - 1)
    else LastBar(raw[..|raw| - 1])
  }

  function DecodeCursor(fmt: Format, cursor: string): Option<Cursor> {
    match DecodePadded(cursor)
    case None => None
    case Some(raw) =>
      match LastBar(raw)
      case None => None
      case Some(i) =>
        if i >= |raw| then None
        else
          var at, id := fmt.readTime(raw[..i]), fmt.readId(raw[i + 1..]);
          if at.Some? && id.Some? then Some(Cursor(at.value, id.value)) else None
  }

  lemma {:induction false} LastBarFound(time: seq<Byte>, id: seq<Byte>)
    requires BAR !in id
    ensures LastBar(time + [BAR] + id) == Some(|time|)
    decreases |id|
  {
    var raw := time + [BAR] + id;
    if id == [] {
      assert raw[|raw| - 1] == BAR;
    } else {
      assert raw[|raw| - 1] == id[|id| - 1] && id[|id| - 1] in id;
      assert raw[..|raw| - 1] == time + [BAR] + id[..|id| - 1];
      LastBarFound(time, id[..|id| - 1]);
    }
  }

  /** A cursor handed out is read back as the position it was made from, whatever the instant's text contains. */
  lemma CursorRoundTrip(fmt: Format, at: int, id: nat)
    requires fmt.Valid()
    ensures DecodeCursor(fmt, EncodeCursor(fmt, at, id)) == Some(Cursor(at, id))
  {
    var time, ident := fmt.showTime(at), fmt.showId(id);
    var raw := time + [BAR] + ident;
    DecodePaddedInvertsEncodePadded(raw);
    LastBarFound(time, ident);
    assert raw[..|time|] == time && raw[|time| + 1..] == ident;
  }

  /** The text before and after the last bar. */
  ghost predicate SplitsAt(raw: seq<Byte>, i: nat) {
    i < |raw| && raw[i] == BAR && BAR !in raw[i + 1..]
  }

  lemma {:induction false} LastBarIff(raw: seq<Byte>, i: nat)
    ensures LastBar(raw) == Some(i) <==> SplitsAt(raw, i)
    ensures LastBar(raw).None? <==> BAR !in raw
    decreases |raw|
  {
    if raw != [] && raw[|raw| - 1] != BAR {
      var shorter := raw[..|raw| - 1];
      LastBarIff(shorter, i);
      assert raw == shorter + [raw[|raw| - 1]];
      if i < |shorter| {
        assert raw[i + 1..] == shorter[i + 1..] + [raw[|raw| - 1]];
      }
    } else if raw != [] && i < |raw| - 1 {
      assert raw[i + 1..][|raw| - 2 - i] == BAR;
    }
  }

  ghost predicate ReadsAs(fmt: Format, raw: seq<Byte>, i: nat, at: int, id: nat) {
    SplitsAt(raw, i) && fmt.readTime(raw[..i]) == Some(at) && fmt.readId(raw[i + 1..]) == Some(id)
  }

  /**
   A cursor is read as a position exactly when it decodes to a text that reads, before its last bar,
   as the instant and, after it, as the identifier; any other is refused.
   */
  lemma DecodesIff(fmt: Format, cursor: string, at: int, id: nat)
    ensures DecodeCursor(fmt, cursor) == Some(Cursor(at, id))
            <==> DecodePadded(cursor).Some? && exists i: nat :: ReadsAs(fmt, DecodePadded(cursor).value, i, at, id)
  {
    if DecodePadded(cursor).Some? {
      var raw := DecodePadded(cursor).value;
      if LastBar(raw).Some? {
        LastBarIff(raw, LastBar(raw).value);
      }
      if DecodeCursor(fmt, cursor) == Some(Cursor(at, id)) {
        assert ReadsAs(fmt, raw, LastBar(raw).value, at, id);
      }
      if i: nat :| ReadsAs(fmt, raw, i, at, id) {
        LastBarIff(raw, i);
      }
    }
  }

  // --- Queries ---

  /** The listing order: most recent first, ties by descending id. */
  predicate Before(a: Event, b: Event) {
    a.at > b.at || (a.at == b.at && a.id > b.id)
  }

  predicate Below(cursor: Option<Cursor>, e: Event) {
    cursor.None? || e.at < cursor.value.at || (e.at == cursor.value.at && e.id < cursor.value.id)
  }

  predicate Matches(f: Filters, e: Event) {
    && (f.action.Some? ==> e.action == f.action.value)
    && (f.actor.Some? ==> e.actor == f.actor)
    && (f.from.Some? ==> e.at >= f.from.value)
    && (f.to.Some? ==> e.at <= f.to.value)
  }

  ghost predicate UniqueIds(table: Table) {
    forall e, e' :: e in table && e' in table && e.id == e'.id ==> e == e'
  }

  ghost predicate Listed(rows: seq<Event>) {
    forall i, j :: 0 <= i < j < |rows| ==> Before(rows[i], rows[j])
  }

  /** What the database returns for a filter, in listing order. */
  function Selected(table: Table, where: Event -> bool): seq<Event> {
    if table == [] then []
    else if where(table[0]) then Inserted(table[0], Selected(table[1..], where))
    else Selected(table[1..], where)
  }

  function Inserted(e: Event, rows: seq<Event>): seq<Event> {
    if rows == [] then [e]
    else if rows[0] == e then rows
    else if Before(e, rows[0]) then [e] + rows
    else [rows[0]] + Inserted(e, rows[1..])
  }

  function Take(rows: seq<Event>, n: nat): seq<Event> {
    if |rows| <= n then rows else rows[..n]
  }

  function Wanted(f: Filters, cursor: Option<Cursor>): Event -> bool {
    (e: Event) => Matches(f, e) && Below(cursor, e)
  }

  /** The part of the listing a cursor leaves to be read. */
  function Rest(table: Table, f: Filters, cursor: Option<Cursor>): seq<Event> {
    Selected(table, Wanted(f, cursor))
  }

  /** The position a well-formed cursor parameter stands for; without one, the top of the listing. */
  function StartOf(fmt: Format, cursor: Option<string>): Option<Cursor> {
    if cursor.None? then None else DecodeCursor(fmt, cursor.value)
  }

  predicate WellFormed(fmt: Format, cursor: Option<string>) {
    cursor.Some? ==> DecodeCursor(fmt, cursor.value).Some?
  }

  /** The page a request must get: the next `limit` rows, and a cursor exactly when there are more. */
  function PageOf(fmt: Format, table: Table, limit: nat, cursor: Option<string>, f: Filters): Result<Page, PageError> {
    if !WellFormed(fmt, cursor) then Err(InvalidCursor)
    else
      var rest := Rest(table, f, StartOf(fmt, cursor));
      var items := Take(rest, limit);
      Ok(Page(items,
              if 0 < limit < |rest| then Some(EncodeCursor(fmt, rest[limit - 1].at, rest[limit - 1].id)) else None))
  }

  /** Each filter given narrows the listing to what it names; the bounds of the period are included. */
  lemma MatchesIff(f: Filters, e: Event)
    ensures Matches(f, e)
            <==> (f.action.None? || f.action == Some(e.action)) && (f.actor.None? || f.actor == e.actor)
                 && (f.from.None? || f.from.value <= e.at) && (f.to.None? || e.at <= f.to.value)
  {
  }

  /** A request fails exactly when it comes with a cursor that cannot be read. */
  lemma RefusedIff(fmt: Format, table: Table, limit: nat, cursor: Option<string>, f: Filters)
    ensures PageOf(fmt, table, limit, cursor, f).Err?
            <==> cursor.Some? && !(exists at: int, id: nat :: DecodeCursor(fmt, cursor.value) == Some(Cursor(at, id)))
  {
    if cursor.Some? && DecodeCursor(fmt, cursor.value).Some? {
      var position := DecodeCursor(fmt, cursor.value).value;
      assert DecodeCursor(fmt, cursor.value) == Some(Cursor(position.at, position.id));
    }
  }

  /** The query is narrowed clause by clause. */
  method Narrowed(position: Option<Cursor>, f: Filters) returns (query: Event -> bool)
    ensures forall e :: query(e) <==> Below(position, e) && Matches(f, e)
    ensures forall e :: query(e) ==>
              && (f.action.None? || f.action == Some(e.action)) && (f.actor.None? || f.actor == e.actor)
              && (f.from.None? || f.from.value <= e.at) && (f.to.None? || e.at <= f.to.value)
  {
    query := (e: Event) => true;
    if position.Some? {
      var c := position.value;
      query := (e: Event) => e.at < c.at || (e.at == c.at && e.id < c.id);
    }
    if f.action.Some? {
      var narrowed := query;
      query := (e: Event) => narrowed(e) && e.action == f.action.value;
    }
    if f.actor.Some? {
      var narrowed := query;
      query := (e: Event) => narrowed(e) && e.actor == f.actor;
    }
    if f.from.Some? {
      var narrowed := query;
      query := (e: Event) => narrowed(e) && e.at >= f.from.value;
    }
    if f.to.Some? {
      var narrowed := query;
      query := (e: Event) => narrowed(e) && e.at <= f.to.value;
    }
  }

  /** The handler reads one row more than it returns. */
  method AuditEventsList(fmt: Format, table: Table, limit: nat, cursor: Option<string>, f: Filters)
    returns (page: Result<Page, PageError>)
    ensures page == PageOf(fmt, table, limit, cursor, f)
  {
    var position: Option<Cursor> := None;
    if cursor.Some? {
      position := DecodeCursor(fmt, cursor.value);
      if position.None? {
        return Err(InvalidCursor);
      }
    }
    var query := Narrowed(position, f);
    assert forall e :: query(e) <==> Wanted(f, position)(e);
    SelectedExtensional(table, query, Wanted(f, position));
    var rows := Take(Selected(table, query), limit + 1);
    ghost var rest := Rest(table, f, position);
    assert rows == Take(rest, limit + 1);
    var hasMore := |rows| > limit;
    rows := rows[..if |rows| < limit then |rows| else limit];
    assert rows == Take(rest, limit) && (hasMore <==> |rest| > limit);
    var next := None;
    if hasMore && rows != [] {
      var last := rows[|rows| - 1];
      next := Some(EncodeCursor(fmt, last.at, last.id));
    }
    return Ok(Page(rows, next));
  }

  lemma SelectedExtensional(table: Table, p: Event -> bool, q: Event -> bool)
    requires forall e :: p(e) <==> q(e)
    ensures Selected(table, p) == Selected(table, q)
  {
  }

  // --- The listing ---

  lemma {:induction false} InsertedListed(e: Event, rows: seq<Event>)
    requires Listed(rows) && forall r :: r in rows && r.id == e.id ==> r == e
    ensures Listed(Inserted(e, rows))
    ensures forall r :: r in Inserted(e, rows) <==> r == e || r in rows
  {
    if rows != [] && rows[0] != e && !Before(e, rows[0]) {
      InsertedListed(e, rows[1..]);
      var rest := Inserted(e, rows[1..]);
      forall j | 0 <= j < |rest|
        ensures Before(rows[0], rest[j])
      {
        assert rest[j] in rest;
        assert rows[0] in rows;
      }
    }
  }

  /** The database's answer is the strictly ordered sequence of the events that qualify. */
  lemma {:induction false} SelectedListed(table: Table, where: Event -> bool)
    requires UniqueIds(table)
    ensures Listed(Selected(table, where))
    ensures forall e :: e in Selected(table, where) <==> e in table && where(e)
  {
    if table != [] {
      SelectedListed(table[1..], where);
      if where(table[0]) {
        InsertedListed(table[0], Selected(table[1..], where));
      }
    }
  }

  lemma FirstOf(rows: seq<Event>) returns (e: Event)
    requires rows != []
    ensures e in rows && e == rows[0]
  {
    e := rows[0];
  }

  /** A strictly ordered listing is determined by the events in it. */
  lemma {:induction false} ListedUnique(a: seq<Event>, b: seq<Event>)
    requires Listed(a) && Listed(b) && forall e :: e in a <==> e in b
    ensures a == b
  {
    if a == [] {
      if b != [] {
        var e := FirstOf(b);
      }
    } else {
      assert a[0] in b && b != [];
      assert b[0] in a;
      assert a[0] == b[0];
      forall e
        ensures e in a[1..] <==> e in b[1..]
      {
        TailOf(a, e);
        TailOf(b, e);
      }
      ListedUnique(a[1..], b[1..]);
    }
  }

  lemma TailOf(rows: seq<Event>, e: Event)
    requires Listed(rows) && rows != []
    ensures e in rows[1..] <==> e in rows && e != rows[0]
  {
    if e in rows[1..] {
      var i :| 0 <= i < |rows[1..]| && rows[1..][i] == e;
      assert Before(rows[0], rows[i + 1]);
    }
  }

  function Position(e: Event): Option<Cursor> {
    Some(Cursor(e.at, e.id))
  }

  /** What is left after a page is what its cursor leaves to be read. */
  lemma RestAfterPage(table: Table, f: Filters, cursor: Option<Cursor>, limit: nat)
    requires UniqueIds(table) && 0 < limit <= |Rest(table, f, cursor)|
    ensures var rest := Rest(table, f, cursor);
            Rest(table, f, Position(rest[limit - 1])) == rest[limit..]
  {
    var rest := Rest(table, f, cursor);
    var last := rest[limit - 1];
    SelectedListed(table, Wanted(f, cursor));
    SelectedListed(table, Wanted(f, Position(last)));
    var after := Rest(table, f, Position(last));
    forall e
      ensures e in after <==> e in rest[limit..]
    {
      if e in after {
        assert last in rest && e in rest;
        var i :| 0 <= i < |rest| && rest[i] == e;
        assert i >= limit;
      }
      if e in rest[limit..] {
        var i :| 0 <= i < |rest[limit..]| && rest[limit..][i] == e;
        assert rest[limit + i] == e && e in rest;
        assert Before(rest[limit - 1], rest[limit + i]);
      }
    }
    ListedUnique(after, rest[limit..]);
  }

  /** A page is the head of what its cursor leaves; its own cursor, if any, leaves the tail. */
  lemma PageSplitsRest(fmt: Format, table: Table, limit: nat, cursor: Option<string>, f: Filters)
    requires fmt.Valid() && UniqueIds(table) && limit >= 1 && WellFormed(fmt, cursor)
    ensures var rest := Rest(table, f, StartOf(fmt, cursor));
            var page := PageOf(fmt, table, limit, cursor, f);
            && page.Ok?
            && page.value.items == Take(rest, limit)
            && (page.value.nextCursor.None? <==> |rest| <= limit)
            && (limit < |rest| ==>
                  && WellFormed(fmt, page.value.nextCursor)
                  && StartOf(fmt, page.value.nextCursor) == Position(rest[limit - 1])
                  && Rest(table, f, Position(rest[limit - 1])) == rest[limit..])
  {
    var rest := Rest(table, f, StartOf(fmt, cursor));
    if limit < |rest| {
      CursorRoundTrip(fmt, rest[limit - 1].at, rest[limit - 1].id);
      RestAfterPage(table, f, StartOf(fmt, cursor), limit);
    }
  }

  // --- Walking a table that does not change ---

  /** One request of a walk: the table as it stands then, and the page size asked for. */
  datatype Request = Request(table: Table, limit: nat)

  datatype WalkResult = WalkResult(items: seq<Event>, finished: bool)

  function WalkRequests(fmt: Format, requests: seq<Request>, f: Filters, cursor: Option<string>): WalkResult {
    if requests == [] then WalkResult([], false)
    else
      match PageOf(fmt, requests[0].table, requests[0].limit, cursor, f)
      case Err(_) => WalkResult([], false)
      case Ok(page) =>
        if page.nextCursor.None? then WalkResult(page.items, true)
        else
          var later := WalkRequests(fmt, requests[1..], f, page.nextCursor);
          WalkResult(page.items + later.items, later.finished)
  }

  /** `n` requests have read a prefix of the listing, all of it if they finished, and enough of them do finish. */
  ghost predicate ReadsListing(walk: WalkResult, rest: seq<Event>, n: nat) {
    && walk.items <= rest
    && (walk.finished ==> walk.items == rest)
    && (n >= |rest| && n > 0 ==> walk.finished)
  }

  lemma ReadsOn(rest: seq<Event>, limit: nat, later: WalkResult, n: nat)
    requires 0 < limit < |rest| && ReadsListing(later, rest[limit..], n)
    ensures ReadsListing(WalkResult(rest[..limit] + later.items, later.finished), rest, n + 1)
  {
    assert rest == rest[..limit] + rest[limit..];
  }

  /**
   Following the cursors reads exactly the listing, from any starting cursor and whatever the page
   sizes; as many requests as there are rows are enough.
   */
  lemma {:induction false} WalkIsTheListing(fmt: Format, requests: seq<Request>, table: Table, f: Filters,
                                            cursor: Option<string>)
    requires fmt.Valid() && UniqueIds(table) && WellFormed(fmt, cursor)
    requires forall i :: 0 <= i < |requests| ==> requests[i].table == table && requests[i].limit >= 1
    ensures ReadsListing(WalkRequests(fmt, requests, f, cursor), Rest(table, f, StartOf(fmt, cursor)), |requests|)
    decreases |requests|
  {
    if requests != [] {
      var limit := requests[0].limit;
      var rest := Rest(table, f, StartOf(fmt, cursor));
      PageSplitsRest(fmt, table, limit, cursor, f);
      var page := PageOf(fmt, table, limit, cursor, f).value;
      if limit < |rest| {
        var later := WalkRequests(fmt, requests[1..], f, page.nextCursor);
        WalkIsTheListing(fmt, requests[1..], table, f, page.nextCursor);
        ReadsOn(rest, limit, later, |requests| - 1);
      }
    }
  }

  // --- Walking while events are inserted ---

  /** The log is append-only: each request sees at least what the previous one saw. */
  ghost predicate Growing(requests: seq<Request>) {
    && (forall i :: 0 <= i < |requests| ==> requests[i].limit >= 1 && UniqueIds(requests[i].table))
    && (forall i, e :: 0 < i < |requests| && e in requests[0].table ==> e in requests[i].table)
    && (requests != [] ==> Growing(requests[1..]))
  }

  lemma {:induction false} GrowingToTheLast(requests: seq<Request>)
    requires Growing(requests) && requests != []
    ensures requests[0].limit >= 1 && UniqueIds(requests[0].table)
    ensures forall e :: e in requests[0].table ==> e in requests[|requests| - 1].table
    ensures |requests| > 1 ==> Growing(requests[1..]) && forall e :: e in requests[0].table ==> e in requests[1].table
  {
  }

  /** The outcome of a walk begun at `position`, on a log that was `first` at its start and `last` at its end. */
  ghost predicate SoundWalk(walk: WalkResult, f: Filters, position: Option<Cursor>, first: Table, last: Table) {
    && Listed(walk.items)
    && (forall e :: e in walk.items ==> Matches(f, e) && Below(position, e) && e in last)
    && (walk.finished ==> forall e :: e in first && Matches(f, e) && Below(position, e) ==> e in walk.items)
  }

  /**
   Whatever is inserted between the requests: no event is returned twice (the rows come strictly
   ordered), only matching events of the log are returned, and a finished walk has returned every
   matching event that was there at its first request.
   */
  lemma {:induction false} WalkWhileInserting(fmt: Format, requests: seq<Request>, f: Filters, cursor: Option<string>)
    requires fmt.Valid() && requests != [] && Growing(requests) && WellFormed(fmt, cursor)
    ensures SoundWalk(WalkRequests(fmt, requests, f, cursor), f, StartOf(fmt, cursor),
                      requests[0].table, requests[|requests| - 1].table)
    decreases |requests|
  {
    var table, limit := requests[0].table, requests[0].limit;
    var position := StartOf(fmt, cursor);
    var rest := Rest(table, f, position);
    GrowingToTheLast(requests);
    SelectedListed(table, Wanted(f, position));
    PageSplitsRest(fmt, table, limit, cursor, f);
    if limit < |rest| {
      var next := PageOf(fmt, table, limit, cursor, f).value.nextCursor;
      var later := WalkRequests(fmt, requests[1..], f, next);
      if |requests| > 1 {
        WalkWhileInserting(fmt, requests[1..], f, next);
        assert requests[1].table == requests[1..][0].table;
        PageThenLater(table, f, position, limit, later, requests[1].table, requests[|requests| - 1].table);
      } else {
        PageThenLater(table, f, position, limit, later, table, table);
      }
    }
  }

  /** A full page followed by a sound walk from its cursor is a sound walk. */
  lemma PageThenLater(table: Table, f: Filters, position: Option<Cursor>, limit: nat, later: WalkResult, grown: Table,
                      last: Table)
    requires UniqueIds(table) && 0 < limit <= |Rest(table, f, position)|
    requires forall e :: e in table ==> e in grown && e in last
    requires SoundWalk(later, f, Position(Rest(table, f, position)[limit - 1]), grown, last)
    ensures SoundWalk(WalkResult(Rest(table, f, position)[..limit] + later.items, later.finished), f, position, table,
                      last)
  {
    var rest := Rest(table, f, position);
    var items, edge := rest[..limit], rest[limit - 1];
    SelectedListed(table, Wanted(f, position));
    forall e | e in items
      ensures e in rest
    {
      var i :| 0 <= i < limit && items[i] == e;
      assert rest[i] == e;
    }
    assert edge in rest;
    RestIsBelow(rest, limit);
    ListedAppend(items, later.items);
    forall e | e in rest && !Below(Position(edge), e)
      ensures e in items
    {
      var i :| 0 <= i < |rest| && rest[i] == e;
      assert i < limit;
      assert items[i] == e;
    }
  }

  lemma RestIsBelow(rows: seq<Event>, limit: nat)
    requires Listed(rows) && 0 < limit <= |rows|
    ensures forall i :: limit <= i < |rows| ==> Below(Position(rows[limit - 1]), rows[i])
  {
    forall i | limit <= i < |rows|
      ensures Below(Position(rows[limit - 1]), rows[i])
    {
      assert Before(rows[limit - 1], rows[i]);
    }
  }

  lemma ListedAppend(a: seq<Event>, b: seq<Event>)
    requires Listed(a) && Listed(b) && (a != [] ==> forall e :: e in b ==> Before(a[|a| - 1], e))
    ensures Listed(a + b)
  {
    forall i, j | 0 <= i < |a| && 0 <= j < |b|
      ensures Before(a[i], b[j])
    {
      assert b[j] in b;
    }
  }
}
