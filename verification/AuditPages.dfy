/** Keyset pagination over the audit events of a file: newest first, resumed after the event the
    cursor names. The collection is what the caller's tenant scope shows, in insertion order. */
module AuditPages {

  import opened Arithmetic
  import opened Sorting

  datatype Event = Event(id: string, at: int, file: string, body: string)

  /** The cursor a client sends or receives; an empty string counts as no cursor. */
  datatype Cursor = NoCursor | At(id: string)

  datatype Position = Start | Behind(event: Event)

  /** The sort order of the query: later creation time first, then larger identifier. */
  predicate Newer(a: Event, b: Event) {
    a.at > b.at || (a.at == b.at && Less(b.id, a.id))
  }

  /** The unique index on event identifiers. */
  predicate UniqueIds(col: seq<Event>) {
    forall i, j :: 0 <= i < j < |col| ==> col[i].id != col[j].id
  }

  predicate NamedIds(col: seq<Event>) { forall i :: 0 <= i < |col| ==> col[i].id != "" }

  predicate Descending(s: seq<Event>) { Ordered(Newer, s) }

  // ------------------------------------------------------------------
  // The query
  // ------------------------------------------------------------------

  /** Looking the cursor's event up, in any file of the scope. */
  function Locate(col: seq<Event>, id: string): Position {
    if col == [] then Start else if col[0].id == id then Behind(col[0]) else Locate(col[1..], id)
  }

  function Resume(col: seq<Event>, cursor: Cursor): Position {
    if cursor.At? && cursor.id != "" then Locate(col, cursor.id) else Start
  }

  predicate Matches(e: Event, file: string, from: Position) {
    e.file == file && (from.Behind? ==> Newer(from.event, e))
  }

  function Matching(col: seq<Event>, file: string, from: Position): seq<Event> {
    if col == [] then []
    else (if Matches(col[0], file, from) then [col[0]] else []) + Matching(col[1..], file, from)
  }

  function Place(e: Event, s: seq<Event>): seq<Event> {
    if s == [] then [e] else if Newer(e, s[0]) then [e] + s else [s[0]] + Place(e, s[1..])
  }

  function Sorted(s: seq<Event>): seq<Event> {
    if s == [] then [] else Place(s[0], Sorted(s[1..]))
  }

  datatype Reply = Reply(events: seq<Event>, next: Cursor)

  /** `get_audit_events`: the newest `limit` matches, and a cursor when the page is full. */
  function Page(col: seq<Event>, file: string, limit: nat, cursor: Cursor): Reply
    requires limit >= 1
  {
    var sorted := Sorted(Matching(col, file, Resume(col, cursor)));
    var events := if |sorted| <= limit then sorted else sorted[..limit];
    Reply(events, if |events| == limit then At(events[limit - 1].id) else NoCursor)
  }

  // ------------------------------------------------------------------
  // The order is total
  // ------------------------------------------------------------------

  lemma {:induction false} NewerTotal(a: Event, b: Event)
    ensures !(Newer(a, b) && Newer(b, a))
    ensures a.id != b.id ==> Newer(a, b) || Newer(b, a)
    ensures a == b ==> !Newer(a, b)
  {
    LessTotal(a.id, b.id);
  }

  lemma {:induction false} NewerTransitive(a: Event, b: Event, c: Event)
    requires Newer(a, b) && Newer(b, c)
    ensures Newer(a, c)
  {
    if a.at == c.at {
      LessTransitive(c.id, b.id, a.id);
    }
  }

  // ------------------------------------------------------------------
  // Sorting
  // ------------------------------------------------------------------

  lemma {:induction false} PlaceSorts(e: Event, s: seq<Event>)
    requires Descending(s) && forall i :: 0 <= i < |s| ==> s[i].id != e.id
    ensures Descending(Place(e, s))
    ensures |Place(e, s)| == |s| + 1
    ensures forall x :: x in Place(e, s) <==> x == e || x in s
  {
    if s != [] {
      if Newer(e, s[0]) {
        forall i | 0 < i < |s| ensures Newer(e, s[i]) {
          NewerTransitive(e, s[0], s[i]);
        }
      } else {
        NewerTotal(e, s[0]);
        assert s == [s[0]] + s[1..];
        PlaceSorts(e, s[1..]);
        forall x | x in Place(e, s[1..]) ensures Newer(s[0], x) {
          if x in s[1..] {
            var i :| 0 <= i < |s[1..]| && s[1..][i] == x;
            assert x == s[i + 1];
          }
        }
      }
    }
  }

  lemma {:induction false} SortedSorts(s: seq<Event>)
    requires UniqueIds(s)
    ensures Descending(Sorted(s)) && |Sorted(s)| == |s|
    ensures forall x :: x in Sorted(s) <==> x in s
  {
    if s != [] {
      assert s == [s[0]] + s[1..];
      SortedSorts(s[1..]);
      forall i | 0 <= i < |Sorted(s[1..])| ensures Sorted(s[1..])[i].id != s[0].id {
        assert Sorted(s[1..])[i] in s[1..];
        var j :| 0 <= j < |s[1..]| && s[1..][j] == Sorted(s[1..])[i];
        assert s[j + 1] == s[1..][j];
      }
      PlaceSorts(s[0], Sorted(s[1..]));
    }
  }

  /** A strictly descending list is determined by its elements. */
  lemma {:induction false} DescendingUnique(a: seq<Event>, b: seq<Event>)
    requires Descending(a) && Descending(b)
    requires forall x :: x in a <==> x in b
    ensures a == b
  {
    forall x, y | Newer(x, y) ensures !Newer(y, x) {
      NewerTotal(x, y);
    }
    OrderedUnique(Newer, a, b);
  }

  // ------------------------------------------------------------------
  // Filtering and looking up
  // ------------------------------------------------------------------

  lemma {:induction false} MatchingExact(col: seq<Event>, file: string, from: Position)
    requires UniqueIds(col)
    ensures UniqueIds(Matching(col, file, from))
    ensures forall x :: x in Matching(col, file, from) <==> x in col && Matches(x, file, from)
  {
    if col != [] {
      assert col == [col[0]] + col[1..];
      MatchingExact(col[1..], file, from);
      var rest := Matching(col[1..], file, from);
      forall i | 0 <= i < |rest| ensures rest[i].id != col[0].id {
        assert rest[i] in col[1..];
        var j :| 0 <= j < |col[1..]| && col[1..][j] == rest[i];
        assert col[j + 1] == col[1..][j];
      }
    }
  }

  lemma {:induction false} LocateFinds(col: seq<Event>, e: Event)
    requires UniqueIds(col) && e in col
    ensures Locate(col, e.id) == Behind(e)
  {
    assert col == [col[0]] + col[1..];
    HeadById(col, e);
    if col[0] != e {
      LocateFinds(col[1..], e);
    }
  }

  lemma {:induction false} HeadById(col: seq<Event>, e: Event)
    requires UniqueIds(col) && e in col
    ensures col[0].id == e.id <==> col[0] == e
  {
    var j :| 0 <= j < |col| && col[j] == e;
  }

  /** A cursor that names no visible event, or is empty, starts over at the newest page. */
  lemma {:induction false} UnknownCursorRestarts(col: seq<Event>, file: string, limit: nat, id: string)
    requires limit >= 1
    requires id == "" || forall i :: 0 <= i < |col| ==> col[i].id != id
    ensures Page(col, file, limit, At(id)) == Page(col, file, limit, NoCursor)
  {
    if id != "" {
      LocateMisses(col, id);
    }
  }

  lemma {:induction false} LocateMisses(col: seq<Event>, id: string)
    requires forall i :: 0 <= i < |col| ==> col[i].id != id
    ensures Locate(col, id) == Start
  {
    if col != [] {
      LocateMisses(col[1..], id);
    }
  }

  // ------------------------------------------------------------------
  // One page
  // ------------------------------------------------------------------

  lemma {:induction false} InPrefix(s: seq<Event>, n: nat, i: nat)
    requires i < |s| && n <= |s|
    ensures i < n ==> s[i] in s[..n]
  {
    if i < n {
      assert s[..n][i] == s[i];
    }
  }

  /** A page is in strictly descending order, holds only matches, and leaves out only matches older
      than all it holds; a page without a cursor leaves out nothing. */
  lemma {:induction false} PageIsNewest(col: seq<Event>, file: string, limit: nat, cursor: Cursor)
    requires UniqueIds(col) && limit >= 1
    ensures var from := Resume(col, cursor);
            var r := Page(col, file, limit, cursor);
            && Descending(r.events) && |r.events| <= limit
            && (forall x :: x in r.events ==> x in col && Matches(x, file, from))
            && (forall x, y :: x in col && Matches(x, file, from) && x !in r.events && y in r.events ==> Newer(y, x))
            && (r.next.NoCursor? ==> forall x :: x in col && Matches(x, file, from) ==> x in r.events)
            && (r.next.At? ==> |r.events| == limit && r.next == At(r.events[limit - 1].id))
  {
    var from := Resume(col, cursor);
    MatchingExact(col, file, from);
    SortedSorts(Matching(col, file, from));
    var sorted := Sorted(Matching(col, file, from));
    if |sorted| > limit {
      forall x, y | x in col && Matches(x, file, from) && x !in sorted[..limit] && y in sorted[..limit]
        ensures Newer(y, x)
      {
        assert x in sorted;
        var i :| 0 <= i < |sorted| && sorted[i] == x;
        var j :| 0 <= j < limit && sorted[..limit][j] == y;
        InPrefix(sorted, limit, i);
        assert Newer(sorted[j], sorted[i]);
      }
    }
  }

  // ------------------------------------------------------------------
  // Walks while events are inserted
  // ------------------------------------------------------------------

  /** Following `next_cursor`: request k is answered from `cols[k]`, and the walk stops at a page
      without a cursor or when no more requests are made. */
  function Walk(cols: seq<seq<Event>>, file: string, limit: nat, cursor: Cursor): Reply
    requires limit >= 1
    decreases |cols|
  {
    if cols == [] then Reply([], cursor)
    else
      var first := Page(cols[0], file, limit, cursor);
      if first.next.NoCursor? then first
      else
        var rest := Walk(cols[1..], file, limit, first.next);
        Reply(first.events + rest.events, rest.next)
  }

  /** Events are only ever appended, with unique non-empty identifiers. */
  predicate Grows(cols: seq<seq<Event>>) {
    && (forall i :: 0 <= i < |cols| ==> UniqueIds(cols[i]) && NamedIds(cols[i]))
    && (forall i, j :: 0 <= i < j < |cols| ==> cols[i] <= cols[j])
  }

  /** What a walk from a position owes: strictly descending events behind it, and all of those that
      were there at its first request once it has ended. */
  predicate Pays(cols: seq<seq<Event>>, file: string, from: Position, reply: Reply) {
    && Descending(reply.events)
    && (forall x :: x in reply.events ==> Matches(x, file, from) && cols != [] && x in cols[|cols| - 1])
    && (reply.next.NoCursor? && cols != [] ==>
          forall x :: x in cols[0] && Matches(x, file, from) ==> x in reply.events)
  }

  lemma {:induction false} WalkPays(cols: seq<seq<Event>>, file: string, limit: nat, cursor: Cursor, from: Position)
    requires limit >= 1 && Grows(cols)
    requires cols != [] ==> Resume(cols[0], cursor) == from
    ensures Pays(cols, file, from, Walk(cols, file, limit, cursor))
    decreases |cols|
  {
    if cols != [] {
      PageIsNewest(cols[0], file, limit, cursor);
      var first := Page(cols[0], file, limit, cursor);
      if first.next.At? {
        var tail := cols[1..];
        var last := first.events[limit - 1];
        assert last in first.events;
        assert last in cols[0];
        if tail != [] {
          Carries(cols, last);
        }
        WalkPays(tail, file, limit, first.next, Behind(last));
        var rest := Walk(tail, file, limit, first.next);
        JoinPays(cols, file, from, first, last, rest);
      } else {
        Kept(cols, first.events);
      }
    }
  }

  /** The last event of a page is still found in the next collection. */
  lemma {:induction false} Carries(cols: seq<seq<Event>>, e: Event)
    requires Grows(cols) && |cols| >= 2 && e in cols[0]
    ensures Resume(cols[1], At(e.id)) == Behind(e)
  {
    assert cols[0] <= cols[1];
    var i :| 0 <= i < |cols[0]| && cols[0][i] == e;
    assert cols[1][i] == e;
    LocateFinds(cols[1], e);
  }

  lemma {:induction false} Kept(cols: seq<seq<Event>>, events: seq<Event>)
    requires Grows(cols) && cols != [] && forall x :: x in events ==> x in cols[0]
    ensures forall x :: x in events ==> x in cols[|cols| - 1]
  {
    if |cols| >= 2 {
      assert cols[0] <= cols[|cols| - 1];
    }
  }

  lemma {:induction false} JoinDescends(a: seq<Event>, b: seq<Event>)
    requires Descending(a) && Descending(b) && a != []
    requires forall x :: x in b ==> Newer(a[|a| - 1], x)
    ensures Descending(a + b)
  {
    forall i, j | 0 <= i < j < |a + b| ensures Newer((a + b)[i], (a + b)[j]) {
      if i < |a| <= j {
        assert b[j - |a|] in b;
        if i < |a| - 1 {
          NewerTransitive(a[i], a[|a| - 1], b[j - |a|]);
        }
      }
    }
  }

  lemma {:induction false} JoinPays(
    cols: seq<seq<Event>>, file: string, from: Position, first: Reply, last: Event, rest: Reply)
    requires Grows(cols) && cols != []
    requires first.events != [] && first.events[|first.events| - 1] == last
    requires Descending(first.events)
    requires forall x :: x in first.events ==> x in cols[0] && Matches(x, file, from)
    requires forall x, y :: x in cols[0] && Matches(x, file, from) && x !in first.events && y in first.events ==> Newer(y, x)
    requires Pays(cols[1..], file, Behind(last), rest)
    requires cols[1..] == [] ==> rest.next.At?
    ensures Pays(cols, file, from, Reply(first.events + rest.events, rest.next))
  {
    JoinDescends(first.events, rest.events);
    Kept(cols, first.events);
    assert last in first.events;
    forall x | x in rest.events ensures Matches(x, file, from) && x in cols[|cols| - 1] {
      assert cols[1..][|cols[1..]| - 1] == cols[|cols| - 1];
      if from.Behind? {
        NewerTransitive(from.event, last, x);
      }
    }
    if rest.next.NoCursor? {
      assert cols[0] <= cols[1];
      forall x | x in cols[0] && Matches(x, file, from) ensures x in first.events + rest.events {
        if x !in first.events {
          assert Newer(last, x);
          assert x in cols[1..][0];
        }
      }
    }
  }

  /** Following the cursor to exhaustion returns every event that existed at the first request
      exactly once, in strictly descending order, whatever is inserted between requests. */
  lemma {:induction false} WalkIsComplete(cols: seq<seq<Event>>, file: string, limit: nat)
    requires limit >= 1 && Grows(cols) && cols != []
    ensures var all := Walk(cols, file, limit, NoCursor);
            && Descending(all.events)
            && (forall i, j :: 0 <= i < j < |all.events| ==> all.events[i] != all.events[j])
            && (forall x :: x in all.events ==> x.file == file && x in cols[|cols| - 1])
            && (all.next.NoCursor? ==> forall x :: x in cols[0] && x.file == file ==> x in all.events)
  {
    WalkPays(cols, file, limit, NoCursor, Start);
    var all := Walk(cols, file, limit, NoCursor);
    forall i, j | 0 <= i < j < |all.events| ensures all.events[i] != all.events[j] {
      assert Newer(all.events[i], all.events[j]);
      NewerTotal(all.events[i], all.events[j]);
    }
  }

  // ------------------------------------------------------------------
  // A fixed collection
  // ------------------------------------------------------------------

  function Still(col: seq<Event>, n: nat): (cols: seq<seq<Event>>)
    ensures |cols| == n
    ensures forall i :: 0 <= i < n ==> cols[i] == col
  {
    seq(n, i requires 0 <= i < n => col)
  }

  /** Behind event k of the sorted list is the rest of the list. */
  lemma {:induction false} RestOfList(col: seq<Event>, file: string, k: nat)
    requires UniqueIds(col)
    requires k < |Sorted(Matching(col, file, Start))|
    ensures var all := Sorted(Matching(col, file, Start));
            Sorted(Matching(col, file, Behind(all[k]))) == all[k + 1..] && all[k] in col
  {
    var all := Sorted(Matching(col, file, Start));
    MatchingExact(col, file, Start);
    SortedSorts(Matching(col, file, Start));
    MatchingExact(col, file, Behind(all[k]));
    SortedSorts(Matching(col, file, Behind(all[k])));
    assert all[k] in all;
    forall x ensures x in Sorted(Matching(col, file, Behind(all[k]))) <==> x in all[k + 1..] {
      OlderThan(all, k, x);
    }
    DescendingUnique(Sorted(Matching(col, file, Behind(all[k]))), all[k + 1..]);
  }

  lemma {:induction false} OlderThan(all: seq<Event>, k: nat, x: Event)
    requires Descending(all) && k < |all|
    ensures x in all[k + 1..] <==> x in all && Newer(all[k], x)
  {
    if x in all && Newer(all[k], x) {
      var i :| 0 <= i < |all| && all[i] == x;
      NewerTotal(all[k], x);
      assert i > k;
      assert all[k + 1..][i - k - 1] == x;
    }
  }

  /** The cursor that stands behind the first `done` events of the list. */
  predicate Stands(all: seq<Event>, done: nat, cursor: Cursor) {
    done <= |all| && (if done == 0 then cursor == NoCursor else cursor == At(all[done - 1].id))
  }

  predicate PageAnswers(all: seq<Event>, done: nat, limit: nat, r: Reply) {
    if done + limit <= |all|
    then r.events == all[done..done + limit] && r.next.At? && Stands(all, done + limit, r.next)
    else done <= |all| && r == Reply(all[done..], NoCursor)
  }

  lemma {:induction false} NextPage(col: seq<Event>, file: string, limit: nat, done: nat, cursor: Cursor, all: seq<Event>)
    requires UniqueIds(col) && NamedIds(col) && limit >= 1
    requires all == Sorted(Matching(col, file, Start)) && Stands(all, done, cursor)
    ensures PageAnswers(all, done, limit, Page(col, file, limit, cursor))
  {
    if done > 0 {
      RestOfList(col, file, done - 1);
      LocateFinds(col, all[done - 1]);
      NonEmptyId(col, all[done - 1]);
    }
    PageOf(col, file, limit, cursor, all[done..]);
  }

  lemma {:induction false} PageOf(col: seq<Event>, file: string, limit: nat, cursor: Cursor, sorted: seq<Event>)
    requires limit >= 1 && Sorted(Matching(col, file, Resume(col, cursor))) == sorted
    ensures var r := Page(col, file, limit, cursor);
            if limit <= |sorted| then r == Reply(sorted[..limit], At(sorted[limit - 1].id)) else r == Reply(sorted, NoCursor)
  {
  }

  /** A walk of at most n requests to a collection that does not change, given by its pages. */
  function Follow(page: Cursor -> Reply, cursor: Cursor, n: nat): Reply
    decreases n
  {
    if n == 0 then Reply([], cursor)
    else
      var first := page(cursor);
      if first.next.NoCursor? then first
      else
        var rest := Follow(page, first.next, n - 1);
        Reply(first.events + rest.events, rest.next)
  }

  lemma {:induction false} WalkFollows(
    col: seq<Event>, file: string, limit: nat, page: Cursor -> Reply, cursor: Cursor, n: nat)
    requires limit >= 1 && forall c :: page(c) == Page(col, file, limit, c)
    ensures Walk(Still(col, n), file, limit, cursor) == Follow(page, cursor, n)
    decreases n
  {
    if n > 0 {
      assert Still(col, n)[1..] == Still(col, n - 1);
      WalkFollows(col, file, limit, page, page(cursor).next, n - 1);
    }
  }

  /** The events that n full pages hold. */
  function Span(n: nat, limit: nat): nat { if n == 0 then 0 else limit + Span(n - 1, limit) }

  /** Every page continues the list where its cursor stands. */
  ghost predicate Continues(page: Cursor -> Reply, all: seq<Event>, limit: nat) {
    forall d: nat, c {:trigger page(c), Stands(all, d, c)} :: Stands(all, d, c) ==> PageAnswers(all, d, limit, page(c))
  }

  /** From behind the first `done` events, n further requests return the events up to index `end`. */
  lemma {:induction false} StillWalk(
    page: Cursor -> Reply, limit: nat, done: nat, cursor: Cursor, n: nat, end: nat, all: seq<Event>)
    requires limit >= 1 && end == done + Span(n, limit) && Stands(all, done, cursor) && Continues(page, all, limit)
    ensures Answers(all, done, end, Follow(page, cursor, n))
    decreases n
  {
    if n > 0 {
      var first := page(cursor);
      var rest := Follow(page, first.next, n - 1);
      if done + limit <= |all| {
        StillWalk(page, limit, done + limit, first.next, n - 1, end, all);
      }
      Answered(all, done, limit, end, first, rest, Follow(page, cursor, n));
    }
  }

  predicate Answers(all: seq<Event>, done: nat, end: nat, walk: Reply) {
    && (done <= end <= |all| ==> walk.events == all[done..end] && (end > 0 ==> walk.next.At?))
    && (done <= |all| < end ==> walk == Reply(all[done..], NoCursor))
  }

  lemma {:induction false} Answered(
    all: seq<Event>, done: nat, limit: nat, end: nat, first: Reply, rest: Reply, whole: Reply)
    requires limit >= 1 && done + limit <= end
    requires PageAnswers(all, done, limit, first)
    requires done + limit <= |all| ==> Answers(all, done + limit, end, rest)
    requires whole == if first.next.NoCursor? then first else Reply(first.events + rest.events, rest.next)
    ensures Answers(all, done, end, whole)
  {
  }

  lemma {:induction false} NonEmptyId(col: seq<Event>, e: Event)
    requires NamedIds(col) && e in col
    ensures e.id != ""
  {
    var i :| 0 <= i < |col| && col[i] == e;
  }

  /** On a fixed collection the pages concatenate to the whole list, newest first, and the walk ends
      with request |list| / limit + 1, not before and not after. */
  lemma {:induction false} FixedWalk(col: seq<Event>, file: string, limit: nat, n: nat)
    requires UniqueIds(col) && NamedIds(col) && limit >= 1 && n >= 1
    ensures var all := Sorted(Matching(col, file, Start));
            var walk := Walk(Still(col, n), file, limit, NoCursor);
            && Descending(all) && (forall x :: x in all <==> x in col && x.file == file)
            && (walk.next.NoCursor? <==> n > |all| / limit)
            && (n > |all| / limit ==> walk.events == all)
  {
    var all := Sorted(Matching(col, file, Start));
    MatchingExact(col, file, Start);
    SortedSorts(Matching(col, file, Start));
    var page := (c: Cursor) => Page(col, file, limit, c);
    forall d: nat, c | Stands(all, d, c) ensures PageAnswers(all, d, limit, page(c)) {
      NextPage(col, file, limit, d, c, all);
    }
    StillWalk(page, limit, 0, NoCursor, n, Span(n, limit), all);
    WalkFollows(col, file, limit, page, NoCursor, n);
    Quotient(|all|, limit, n);
  }

  lemma {:induction false} Quotient(a: nat, limit: nat, n: nat)
    requires limit >= 1
    ensures n > a / limit <==> Span(n, limit) > a
    decreases n
  {
    if a < limit {
      DivUnique(a, limit, 0, a);
    } else {
      DivStep(a - limit, limit);
    }
    if n > 0 && a >= limit {
      Quotient(a - limit, limit, n - 1);
    }
  }

  // ------------------------------------------------------------------
  // The collection
  // ------------------------------------------------------------------

  /** What a request is answered with, for any limit. */
  datatype Answer = Served(events: seq<Event>, next: Cursor) | IndexError

  /** The database takes a limit of zero for no limit and a negative one for its size, while the cursor
      is decided by comparing the length of the page with the limit as given. */
  function Serve(sorted: seq<Event>, limit: int): Answer {
    var size := if limit >= 0 then limit else -limit;
    var events := if limit == 0 || |sorted| <= size then sorted else sorted[..size];
    if |events| != limit then Served(events, NoCursor)
    else if events == [] then IndexError
    else Served(events, At(events[|events| - 1].id))
  }

  function AnswerFor(col: seq<Event>, file: string, limit: int, cursor: Cursor): Answer {
    Serve(Sorted(Matching(col, file, Resume(col, cursor))), limit)
  }

  lemma {:induction false} ServeDescends(sorted: seq<Event>, limit: int)
    requires Descending(sorted)
    ensures var a := Serve(sorted, limit);
            a.Served? ==> Descending(a.events) && (a.next.At? <==> |a.events| == limit)
  {
  }

  lemma {:induction false} QueryDescends(col: seq<Event>, file: string, from: Position)
    requires UniqueIds(col)
    ensures Descending(Sorted(Matching(col, file, from)))
  {
    MatchingExact(col, file, from);
    SortedSorts(Matching(col, file, from));
  }

  /** With a positive limit this is the page. A request for nothing fails if and only if nothing matches,
      and otherwise returns everything; a negative limit never leads to a second page. */
  lemma {:induction false} AnyLimit(col: seq<Event>, file: string, limit: int, cursor: Cursor)
    ensures limit >= 1 ==>
              (var r := Page(col, file, limit, cursor); AnswerFor(col, file, limit, cursor) == Served(r.events, r.next))
    ensures AnswerFor(col, file, limit, cursor).IndexError? <==>
              limit == 0 && Sorted(Matching(col, file, Resume(col, cursor))) == []
    ensures limit == 0 && AnswerFor(col, file, limit, cursor).Served? ==>
              AnswerFor(col, file, limit, cursor) == Served(Sorted(Matching(col, file, Resume(col, cursor))), NoCursor)
    ensures limit < 0 ==> AnswerFor(col, file, limit, cursor) == Served(Page(col, file, -limit, cursor).events, NoCursor)
  {
  }

  /** A later time, or the same time and a larger identifier; the identifiers part at some character. */
  ghost predicate After(a: Event, b: Event) {
    a.at > b.at || (a.at == b.at && exists p :: PartsAt(b.id, a.id, p))
  }

  /** The answer to any request is newest first by its own columns: creation times never increase, and
      between equal times the identifiers strictly decrease. All its events are of the file, and those
      behind a cursor come strictly after its event in that order. */
  lemma {:induction false} NewestFirst(col: seq<Event>, file: string, limit: int, cursor: Cursor)
    requires UniqueIds(col) && AnswerFor(col, file, limit, cursor).Served?
    ensures var events := AnswerFor(col, file, limit, cursor).events;
            && (forall i, j :: 0 <= i < j < |events| ==> After(events[i], events[j]))
            && (forall i :: 0 <= i < |events| ==> events[i] in col && events[i].file == file)
            && (forall e, i :: e in col && e.id != "" && cursor == At(e.id) && 0 <= i < |events| ==> After(e, events[i]))
  {
    var from := Resume(col, cursor);
    var sorted := Sorted(Matching(col, file, from));
    var events := AnswerFor(col, file, limit, cursor).events;
    QueryDescends(col, file, from);
    ServeDescends(sorted, limit);
    forall i, j | 0 <= i < j < |events| ensures After(events[i], events[j]) {
      LessExactly(events[j].id, events[i].id);
    }
    forall i | 0 <= i < |events| ensures events[i] in col && Matches(events[i], file, from) {
      MatchingExact(col, file, from);
      SortedSorts(Matching(col, file, from));
      assert events[i] == sorted[i] && sorted[i] in sorted;
    }
    forall e, i | e in col && e.id != "" && cursor == At(e.id) && 0 <= i < |events| ensures After(e, events[i]) {
      LocateFinds(col, e);
      LessExactly(events[i].id, e.id);
    }
  }

  class AuditCollection {
    var events: seq<Event>

    constructor ()
      ensures events == [] && UniqueIds(events)
    {
      events := [];
    }

    /** The unique index refuses a second event with the same identifier; otherwise the collection
        grows, so the states between the requests of a walk are as `Grows` asks. */
    method InsertAuditEvent(e: Event) returns (inserted: bool)
      requires UniqueIds(events)
      modifies this
      ensures UniqueIds(events) && old(events) <= events
      ensures inserted <==> forall i :: 0 <= i < |old(events)| ==> old(events)[i].id != e.id
      ensures events == if inserted then old(events) + [e] else old(events)
    {
      inserted := forall i :: 0 <= i < |events| ==> events[i].id != e.id;
      if inserted {
        events := events + [e];
      }
    }

    /** `get_audit_events`, for any limit a caller may send. */
    method GetAuditEvents(file: string, limit: int, cursor: Cursor) returns (answer: Answer)
      requires UniqueIds(events)
      ensures answer == AnswerFor(events, file, limit, cursor)
      ensures answer.Served? ==> Descending(answer.events) && (answer.next.At? <==> |answer.events| == limit)
    {
      var page := Sorted(Matching(events, file, Resume(events, cursor)));
      QueryDescends(events, file, Resume(events, cursor));
      ServeDescends(page, limit);
      answer := Limited(page, limit);
    }
  }

  /** The end of the query: the limit, and the cursor computed from the page. */
  method Limited(sorted: seq<Event>, limit: int) returns (answer: Answer)
    ensures answer == Serve(sorted, limit)
  {
    var page := sorted;
    var size := if limit >= 0 then limit else -limit;
    if limit != 0 && |page| > size {
      page := page[..size];
    }
    if |page| != limit {
      return Served(page, NoCursor);
    }
    if page == [] {
      return IndexError;
    }
    return Served(page, At(page[|page| - 1].id));
  }
}
