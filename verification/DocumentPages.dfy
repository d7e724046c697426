/**
 * The document list: keyset pagination, newest first. A walk is one request after another, each
 * with the previous page's cursor, over a table that may change arbitrarily in between, except
 * that a row keeps its id and its creation time.
 */
module DocumentPages {
  import opened Common

  /** What a row is ordered by, and what a cursor names; `id` is compared as the database does. */
  datatype Position = Position(createdAt: int, id: nat)

  datatype Status = Queued | Rendering | Completed | Failed | Expired
  datatype Source = Api | Ui

  datatype Row = Row(org: nat, createdAt: int, status: Status, source: Source, title: Option<string>)

  type Table = map<nat, Row>

  datatype Query = Query(
    status: Option<Status>, source: Option<Source>, search: Option<string>, from: Option<int>, to: Option<int>,
    limit: Option<nat>, cursor: Option<Position>)

  datatype Page = Page(data: seq<Position>, nextCursor: Option<Position>)

  const DEFAULT_PAGE_SIZE := 25

  function Limit(q: Query): nat {
    if q.limit.Some? then q.limit.value else DEFAULT_PAGE_SIZE
  }

  /** `a` is listed before `b`: newer, or as new with the greater id. */
  predicate Before(a: Position, b: Position) {
    a.createdAt > b.createdAt || (a.createdAt == b.createdAt && a.id > b.id)
  }

  function Lower(c: char): char {
    if 'A' <= c <= 'Z' then c - 'A' + 'a' else c
  }

  predicate StartsWith(text: string, part: string)
    decreases |part|
  {
    part == []
    || (text != [] && Lower(text[0]) == Lower(part[0]) && StartsWith(text[1..], part[1..]))
  }

  /** ILIKE %part%. */
  predicate Contains(text: string, part: string) {
    StartsWith(text, part) || (text != [] && Contains(text[1..], part))
  }

  /** The filters of the query, all but the cursor. An empty search filters nothing. */
  predicate Matches(org: nat, q: Query, r: Row) {
    && r.org == org
    && (q.status.Some? ==> r.status == q.status.value)
    && (q.source.Some? ==> r.source == q.source.value)
    && (q.search.Some? && q.search.value != "" ==> r.title.Some? && Contains(r.title.value, q.search.value))
    && (q.from.Some? ==> q.from.value <= r.createdAt)
    && (q.to.Some? ==> r.createdAt < q.to.value)
  }

  /** The cursor clause as the query spells it out. */
  predicate PastCursor(cursor: Option<Position>, p: Position) {
    cursor.None?
    || p.createdAt < cursor.value.createdAt
    || (p.createdAt == cursor.value.createdAt && p.id < cursor.value.id)
  }

  /** The row at this position exists and passes the filters. */
  predicate Listed(t: Table, org: nat, q: Query, p: Position) {
    p.id in t && t[p.id].createdAt == p.createdAt && Matches(org, q, t[p.id])
  }

  function Selected(t: Table, org: nat, q: Query, cursor: Option<Position>): set<Position> {
    set id | id in t && Listed(t, org, q, Position(t[id].createdAt, id))
                     && PastCursor(cursor, Position(t[id].createdAt, id)) :: Position(t[id].createdAt, id)
  }

  lemma SelectedAre(t: Table, org: nat, q: Query, cursor: Option<Position>, p: Position)
    ensures p in Selected(t, org, q, cursor) <==> Listed(t, org, q, p) && PastCursor(cursor, p)
  {
    if Listed(t, org, q, p) && PastCursor(cursor, p) {
      assert p == Position(t[p.id].createdAt, p.id);
    }
  }

  // ----- ORDER BY createdAt DESC, id DESC -----------------------------------------------------

  ghost predicate Descending(s: seq<Position>) {
    forall i, j :: 0 <= i < j < |s| ==> Before(s[i], s[j])
  }

  ghost predicate IsFirst(s: set<Position>, p: Position) {
    p in s && forall x :: x in s && x != p ==> Before(p, x)
  }

  lemma {:induction false} FirstExists(s: set<Position>) returns (p: Position)
    requires s != {}
    ensures IsFirst(s, p)
  {
    if forall x: Position :: x !in s {
      assert false;
    }
    p :| p in s;
    var rest := s - {p};
    assert forall x :: x in s ==> x == p || x in rest;
    if rest == {} {
    } else {
      var r := FirstExists(rest);
      if Before(r, p) {
        p := r;
      }
    }
  }

  ghost function First(s: set<Position>): (p: Position)
    requires s != {}
    ensures IsFirst(s, p)
  {
    assert exists p :: IsFirst(s, p) by {
      var p := FirstExists(s);
    }
    var p :| IsFirst(s, p);
    p
  }

  /** The sorted result of a query that selects `s`. */
  ghost function Ordered(s: set<Position>): seq<Position> {
    if s == {} then [] else [First(s)] + Ordered(s - {First(s)})
  }

  lemma FirstLeads(s: set<Position>, rest: seq<Position>)
    requires s != {} && Descending(rest) && forall p :: p in rest <==> p in s - {First(s)}
    ensures Descending([First(s)] + rest)
    ensures forall p :: p in [First(s)] + rest <==> p in s
  {
    assert forall i :: 0 <= i < |rest| ==> rest[i] in rest;
  }

  lemma {:induction false} OrderedIsSorted(s: set<Position>)
    ensures Descending(Ordered(s)) && |Ordered(s)| == |s|
    ensures forall p :: p in Ordered(s) <==> p in s
  {
    hide First, IsFirst, Before;
    if s == {} {
    } else {
      assert First(s) in s by {
        FirstIsMember(s);
      }
      OrderedIsSorted(s - {First(s)});
      FirstLeads(s, Ordered(s - {First(s)}));
    }
  }

  lemma FirstIsMember(s: set<Position>)
    requires s != {}
    ensures First(s) in s
  {
  }

  lemma {:induction false} DescendingUnique(a: seq<Position>, b: seq<Position>)
    requires Descending(a) && Descending(b) && forall p :: p in a <==> p in b
    ensures a == b
  {
    assert |a| > 0 ==> a[0] in a;
    assert |b| > 0 ==> b[0] in b;
    if a == [] || b == [] {
    } else {
      assert a[0] in b && b[0] in a;
      assert a[0] == b[0];
      forall p ensures p in a[1..] <==> p in b[1..] {
        assert p in a <==> p == a[0] || p in a[1..];
        assert p in b <==> p == b[0] || p in b[1..];
      }
      DescendingUnique(a[1..], b[1..]);
    }
  }

  // ----- one request --------------------------------------------------------------------------

  /** `list`: fetch one row more than the page, to know whether there is another page. */
  ghost function List(t: Table, org: nat, q: Query): Page {
    var all := Ordered(Selected(t, org, q, q.cursor));
    var rows := all[..Min(|all|, Limit(q) + 1)];
    var data := rows[..Min(|rows|, Limit(q))];
    Page(data, if |rows| > Limit(q) && data != [] then Some(data[|data| - 1]) else None)
  }

  /** What lies behind the first `n` of a descending list comes after the last of them. */
  lemma InPrefixOrBehind(all: seq<Position>, n: nat, p: Position)
    requires Descending(all) && p in all && n >= 1
    ensures p in all[..Min(|all|, n)] || (|all| > n && Before(all[n - 1], p))
  {
    var i :| 0 <= i < |all| && all[i] == p;
    if i < n {
      assert all[..Min(|all|, n)][i] == p;
    } else {
      assert Before(all[n - 1], all[i]);
    }
  }

  lemma ListTakes(t: Table, org: nat, q: Query)
    requires Limit(q) >= 1
    ensures var page, all, n := List(t, org, q), Ordered(Selected(t, org, q, q.cursor)), Limit(q);
      && page.data == all[..Min(|all|, n)]
      && page.nextCursor == if |all| > n then Some(all[n - 1]) else None
  {
    hide Selected, Ordered;
    var all, n := Ordered(Selected(t, org, q, q.cursor)), Limit(q);
    assert all[..Min(|all|, n + 1)][..Min(|all|, n)] == all[..Min(|all|, n)];
  }

  /** A page is a descending run of selected rows; it is the last exactly when nothing is left out. */
  lemma PageIsThePrefix(t: Table, org: nat, q: Query)
    requires Limit(q) >= 1
    ensures var page, s := List(t, org, q), Selected(t, org, q, q.cursor);
      && Descending(page.data) && |page.data| == Min(|s|, if q.limit.Some? then q.limit.value else 25)
      && (forall p :: p in page.data ==> Listed(t, org, q, p) && PastCursor(q.cursor, p))
      && (page.nextCursor.None? <==> |s| <= Limit(q))
      && (page.nextCursor.Some? ==> |page.data| > 0 && page.nextCursor.value == page.data[|page.data| - 1])
      && (forall p :: Listed(t, org, q, p) && PastCursor(q.cursor, p) ==>
            p in page.data || (page.nextCursor.Some? && PastCursor(page.nextCursor, p)))
  {
    var s := Selected(t, org, q, q.cursor);
    var all, page := Ordered(s), List(t, org, q);
    OrderedIsSorted(s);
    ListTakes(t, org, q);
    hide List, Ordered, Selected, Listed, Limit;
    forall p | p in page.data ensures Listed(t, org, q, p) && PastCursor(q.cursor, p) {
      assert p in all;
      SelectedAre(t, org, q, q.cursor, p);
    }
    forall p | Listed(t, org, q, p) && PastCursor(q.cursor, p)
      ensures p in page.data || (page.nextCursor.Some? && PastCursor(page.nextCursor, p))
    {
      SelectedAre(t, org, q, q.cursor, p);
      InPrefixOrBehind(all, Limit(q), p);
    }
  }

  // ----- a walk -------------------------------------------------------------------------------

  /** The pages of a walk whose i-th request sees `tables[i]`; it stops at a page without cursor. */
  ghost function Walk(tables: seq<Table>, org: nat, q: Query): (pages: seq<Page>)
    ensures |pages| <= |tables|
  {
    if tables == [] then []
    else
      var page := List(tables[0], org, q);
      [page] + if page.nextCursor.None? then [] else Walk(tables[1..], org, q.(cursor := page.nextCursor))
  }

  ghost predicate Finished(pages: seq<Page>) {
    pages != [] && pages[|pages| - 1].nextCursor.None?
  }

  ghost function Rows(pages: seq<Page>): seq<Position> {
    if pages == [] then [] else pages[0].data + Rows(pages[1..])
  }

  lemma RowsCons(page: Page, pages: seq<Page>)
    ensures Rows([page] + pages) == page.data + Rows(pages)
  {
    assert ([page] + pages)[1..] == pages;
  }

  /** Whatever happens to the table, the rows come in strictly descending order, so none twice. */
  lemma {:induction false} WalkDescends(tables: seq<Table>, org: nat, q: Query)
    requires Limit(q) >= 1
    ensures Descending(Rows(Walk(tables, org, q)))
    ensures var rows := Rows(Walk(tables, org, q));
      forall i, j :: 0 <= i < j < |rows| ==>
        rows[i].createdAt > rows[j].createdAt || (rows[i].createdAt == rows[j].createdAt && rows[i].id > rows[j].id)
    ensures forall p :: p in Rows(Walk(tables, org, q)) ==> PastCursor(q.cursor, p)
  {
    if tables == [] {
    } else {
      var page := List(tables[0], org, q);
      PageIsThePrefix(tables[0], org, q);
      if page.nextCursor.None? {
        assert Walk(tables, org, q) == [page];
        RowsCons(page, []);
        assert [page] + [] == [page];
        assert Rows([page]) == page.data;
      } else {
        var next := q.(cursor := page.nextCursor);
        WalkDescends(tables[1..], org, next);
        RowsCons(page, Walk(tables[1..], org, next));
        JoinDescends(page.data, Rows(Walk(tables[1..], org, next)));
      }
    }
  }

  lemma JoinDescends(a: seq<Position>, b: seq<Position>)
    requires Descending(a) && Descending(b) && a != []
    requires forall p :: p in b ==> PastCursor(Some(a[|a| - 1]), p)
    ensures Descending(a + b)
    ensures forall c: Option<Position>, p ::
      (forall x :: x in a ==> PastCursor(c, x)) && p in a + b ==> PastCursor(c, p)
  {
    var last := a[|a| - 1];
    forall i, j | 0 <= i < j < |a + b| ensures Before((a + b)[i], (a + b)[j]) {
      if i < |a| <= j {
        assert b[j - |a|] in b;
      }
    }
    forall c: Option<Position>, p | (forall x :: x in a ==> PastCursor(c, x)) && p in a + b ensures PastCursor(c, p) {
      assert last in a;
    }
  }

  /** Every row that is there, and matches, at every request of a finished walk is returned. */
  lemma {:induction false} WalkMissesNothing(tables: seq<Table>, org: nat, q: Query, p: Position)
    requires Limit(q) >= 1 && Finished(Walk(tables, org, q))
    requires forall i :: 0 <= i < |Walk(tables, org, q)| ==> Listed(tables[i], org, q, p)
    requires PastCursor(q.cursor, p)
    ensures p in Rows(Walk(tables, org, q))
  {
    hide List, Listed;
    if tables == [] {
    } else {
      var page := List(tables[0], org, q);
      PageIsThePrefix(tables[0], org, q);
      var next := q.(cursor := page.nextCursor);
      var rest := if page.nextCursor.None? then [] else Walk(tables[1..], org, next);
      var pages := Walk(tables, org, q);
      assert pages == [page] + rest;
      RowsCons(page, rest);
      if p !in page.data {
        assert pages[|pages| - 1] == rest[|rest| - 1];
        forall i | 0 <= i < |rest| ensures Listed(tables[1..][i], org, next, p) {
          assert Listed(tables[i + 1], org, q, p);
          SameFilters(tables[i + 1], org, q, next, p);
        }
        WalkMissesNothing(tables[1..], org, next, p);
      }
    }
  }

  /** How many pages of `d` rows it takes to show `n` rows; an empty list still takes one. */
  function PagesFor(n: nat, d: nat): nat
    requires d >= 1
  {
    if n <= d then 1 else 1 + PagesFor(n - d, d)
  }

  lemma {:induction false} PagesForIs(n: nat, d: nat)
    requires d >= 1
    ensures PagesFor(n, d) == Max(1, CeilDiv(n, d))
  {
    if n > d {
      PagesForIs(n - d, d);
      CeilDivStep(n, d);
    } else if n > 0 {
      CeilDivSmall(n, d);
    }
  }

  /** Every row returned was there, and matched, at the request that returned it. */
  lemma {:induction false} WalkInventsNothing(tables: seq<Table>, org: nat, q: Query, i: nat, p: Position)
    requires Limit(q) >= 1 && i < |Walk(tables, org, q)| && p in Walk(tables, org, q)[i].data
    ensures Listed(tables[i], org, q, p)
  {
    if i == 0 {
      PageIsThePrefix(tables[0], org, q);
    } else {
      var next := q.(cursor := List(tables[0], org, q).nextCursor);
      WalkInventsNothing(tables[1..], org, next, i - 1, p);
      assert Listed(tables[1..][i - 1], org, next, p);
    }
  }

  lemma PastTheNth(all: seq<Position>, n: nat, p: Position)
    requires Descending(all) && 1 <= n <= |all| && p in all
    ensures PastCursor(Some(all[n - 1]), p) <==> p in all[n..]
  {
    var i :| 0 <= i < |all| && all[i] == p;
    assert forall k :: 0 <= k < n ==> all[k] == all[n - 1] || Before(all[k], all[n - 1]);
    assert i >= n ==> all[n..][i - n] == p;
  }

  lemma PastThePage(t: Table, org: nat, q: Query, next: Query, p: Position)
    requires Limit(q) >= 1 && List(t, org, q).nextCursor.Some? && next == q.(cursor := List(t, org, q).nextCursor)
    ensures var all := Ordered(Selected(t, org, q, q.cursor));
      |all| > Limit(q) && (p in Selected(t, org, next, next.cursor) <==> p in all[Limit(q)..])
  {
    hide Listed;
    var all, n := Ordered(Selected(t, org, q, q.cursor)), Limit(q);
    ListTakes(t, org, q);
    OrderedIsSorted(Selected(t, org, q, q.cursor));
    SelectedAre(t, org, q, q.cursor, all[n - 1]);
    SelectedAre(t, org, q, q.cursor, p);
    SelectedAre(t, org, next, next.cursor, p);
    assert all[n - 1] in all;
    assert p in all[n..] ==> p in all;
    SameFilters(t, org, q, next, p);
    if p in all {
      PastTheNth(all, n, p);
    }
  }

  lemma SameFilters(t: Table, org: nat, q: Query, next: Query, p: Position)
    requires next == q.(cursor := next.cursor)
    ensures Listed(t, org, next, p) <==> Listed(t, org, q, p)
  {
  }

  /** What lies past the end of a page is the rest of the sorted result. */
  lemma RestOfTheResult(t: Table, org: nat, q: Query, next: Query)
    requires Limit(q) >= 1 && List(t, org, q).nextCursor.Some? && next == q.(cursor := List(t, org, q).nextCursor)
    ensures var s, rest := Selected(t, org, q, q.cursor), Selected(t, org, next, next.cursor);
      Ordered(s) == List(t, org, q).data + Ordered(rest) && |rest| == |s| - Limit(q) > 0
  {
    hide Selected, List, Limit, Ordered;
    var s, rest, n := Selected(t, org, q, q.cursor), Selected(t, org, next, next.cursor), Limit(q);
    var all := Ordered(s);
    ListTakes(t, org, q);
    OrderedIsSorted(s);
    OrderedIsSorted(rest);
    forall p ensures p in Ordered(rest) <==> p in all[n..] {
      PastThePage(t, org, q, next, p);
    }
    DescendingUnique(Ordered(rest), all[n..]);
    assert all == all[..n] + all[n..];
  }

  /**
   * On a table that does not change, the pages together are exactly the sorted, filtered list, and
   * there are max(1, ceil(n / limit)) of them.
   */
  lemma WalkOfAnUnchangingTable(t: Table, tables: seq<Table>, org: nat, q: Query)
    requires Limit(q) >= 1 && forall i :: 0 <= i < |tables| ==> tables[i] == t
    requires |tables| >= Max(1, CeilDiv(|Selected(t, org, q, q.cursor)|, Limit(q)))
    ensures var pages, s := Walk(tables, org, q), Selected(t, org, q, q.cursor);
      && Finished(pages) && Rows(pages) == Ordered(s)
      && |pages| == Max(1, CeilDiv(|s|, Limit(q)))
  {
    PagesForIs(|Selected(t, org, q, q.cursor)|, Limit(q));
    UnchangingWalk(t, tables, org, q);
  }

  lemma LastPage(tables: seq<Table>, org: nat, q: Query)
    requires Limit(q) >= 1 && tables != [] && List(tables[0], org, q).nextCursor.None?
    ensures var s := Selected(tables[0], org, q, q.cursor);
      && Finished(Walk(tables, org, q)) && |Walk(tables, org, q)| == 1
      && Rows(Walk(tables, org, q)) == Ordered(s) && |s| <= Limit(q)
  {
    var s := Selected(tables[0], org, q, q.cursor);
    var page := List(tables[0], org, q);
    PageIsThePrefix(tables[0], org, q);
    OrderedIsSorted(s);
    assert Walk(tables, org, q) == [page] + [];
    RowsCons(page, []);
    assert Ordered(s)[..|s|] == Ordered(s);
  }

  lemma {:induction false} UnchangingWalk(t: Table, tables: seq<Table>, org: nat, q: Query)
    requires Limit(q) >= 1 && forall i :: 0 <= i < |tables| ==> tables[i] == t
    requires |tables| >= PagesFor(|Selected(t, org, q, q.cursor)|, Limit(q))
    ensures var pages, s := Walk(tables, org, q), Selected(t, org, q, q.cursor);
      Finished(pages) && Rows(pages) == Ordered(s) && |pages| == PagesFor(|s|, Limit(q))
    decreases |tables|
  {
    hide List, Selected;
    var page := List(t, org, q);
    if page.nextCursor.None? {
      LastPage(tables, org, q);
    } else {
      var next := q.(cursor := page.nextCursor);
      RestOfTheResult(t, org, q, next);
      UnchangingWalk(t, tables[1..], org, next);
      RowsCons(page, Walk(tables[1..], org, next));
    }
  }

  // ----- what a walk shows, read off the rows ----------------------------------------------------

  /** The same letter, up to the case of ASCII letters. */
  predicate SameLetter(a: char, b: char) {
    || a == b
    || ('A' <= a <= 'Z' && b as int == a as int + 32)
    || ('A' <= b <= 'Z' && a as int == b as int + 32)
  }

  /** `part` stands in `text` at offset `k`. */
  predicate StandsAt(text: string, part: string, k: nat) {
    k + |part| <= |text| && forall j :: 0 <= j < |part| ==> SameLetter(text[k + j], part[j])
  }

  lemma LowerIsSame(a: char, b: char)
    ensures Lower(a) == Lower(b) <==> SameLetter(a, b)
  {
  }

  lemma {:induction false} StartsIsAtZero(text: string, part: string)
    ensures StartsWith(text, part) <==> StandsAt(text, part, 0)
    decreases |part|
  {
    if part != [] && text != [] {
      LowerIsSame(text[0], part[0]);
      StartsIsAtZero(text[1..], part[1..]);
      if StandsAt(text[1..], part[1..], 0) && SameLetter(text[0], part[0]) {
        forall j | 0 <= j < |part| ensures SameLetter(text[j], part[j]) {
          if j > 0 {
            assert text[j] == text[1..][j - 1] && part[j] == part[1..][j - 1];
          }
        }
      }
      if StandsAt(text, part, 0) {
        assert SameLetter(text[0 + 0], part[0]);
        forall j | 0 <= j < |part[1..]| ensures SameLetter(text[1..][0 + j], part[1..][j]) {
          assert SameLetter(text[0 + (j + 1)], part[j + 1]);
        }
      }
    }
  }

  lemma ShiftStands(text: string, part: string, k: nat)
    requires text != []
    ensures StandsAt(text[1..], part, k) <==> StandsAt(text, part, k + 1)
  {
    if k + 1 + |part| <= |text| {
      assert forall i :: 0 <= i < |text[1..]| ==> text[1..][i] == text[i + 1];
    }
  }

  /** The search is a search for a substring. */
  lemma {:induction false} ContainsIsSomewhere(text: string, part: string)
    ensures Contains(text, part) <==> exists k: nat :: StandsAt(text, part, k)
  {
    hide StandsAt, StartsWith;
    StartsIsAtZero(text, part);
    if text != [] {
      ContainsIsSomewhere(text[1..], part);
      if k: nat :| StandsAt(text[1..], part, k) {
        ShiftStands(text, part, k);
        assert StandsAt(text, part, k + 1);
      }
      if k: nat :| StandsAt(text, part, k) {
        if k > 0 {
          ShiftStands(text, part, k - 1);
          assert StandsAt(text[1..], part, k - 1);
        }
      }
    } else {
      OnlyAtZero(part);
    }
  }

  lemma OnlyAtZero(part: string)
    ensures forall k: nat :: StandsAt("", part, k) ==> k == 0
  {
  }

  /** What is asked for: the organization's own row, created then, in every respect the query names. */
  ghost predicate Asked(t: Table, org: nat, q: Query, p: Position) {
    && p.id in t
    && var r := t[p.id];
      && r.org == org && r.createdAt == p.createdAt
      && (q.status == None || q.status == Some(r.status))
      && (q.source == None || q.source == Some(r.source))
      && (q.from.Some? ==> q.from.value <= p.createdAt) && (q.to.Some? ==> p.createdAt < q.to.value)
      && (q.search.Some? && q.search.value != "" ==>
            r.title.Some? && exists k: nat :: StandsAt(r.title.value, q.search.value, k))
  }

  lemma ListedIsAsked(t: Table, org: nat, q: Query, p: Position)
    ensures Listed(t, org, q, p) <==> Asked(t, org, q, p)
  {
    hide StandsAt, Contains;
    if p.id in t && t[p.id].title.Some? && q.search.Some? {
      ContainsIsSomewhere(t[p.id].title.value, q.search.value);
    }
  }

  /**
   * A row on any page of any walk belongs to the organization that asks and has everything the query
   * asks for, at the request that returned it.
   */
  lemma WalkShowsOnlyTheAsked(tables: seq<Table>, org: nat, q: Query, i: nat, p: Position)
    requires Limit(q) >= 1 && i < |Walk(tables, org, q)| && p in Walk(tables, org, q)[i].data
    ensures p.id in tables[i] && tables[i][p.id].org == org
    ensures Asked(tables[i], org, q, p)
  {
    WalkInventsNothing(tables, org, q, i, p);
    ListedIsAsked(tables[i], org, q, p);
  }

  /** A row that has all this at every request of a finished walk is on one of its pages. */
  lemma WalkShowsAllTheAsked(tables: seq<Table>, org: nat, q: Query, p: Position)
    requires Limit(q) >= 1 && Finished(Walk(tables, org, q)) && q.cursor.None?
    requires forall i :: 0 <= i < |Walk(tables, org, q)| ==> Asked(tables[i], org, q, p)
    ensures exists i :: 0 <= i < |Walk(tables, org, q)| && p in Walk(tables, org, q)[i].data
  {
    forall i | 0 <= i < |Walk(tables, org, q)| ensures Listed(tables[i], org, q, p) {
      ListedIsAsked(tables[i], org, q, p);
    }
    WalkMissesNothing(tables, org, q, p);
    RowIsOnAPage(Walk(tables, org, q), p);
  }

  lemma {:induction false} RowIsOnAPage(pages: seq<Page>, p: Position)
    ensures p in Rows(pages) <==> exists i :: 0 <= i < |pages| && p in pages[i].data
  {
    if pages != [] {
      RowIsOnAPage(pages[1..], p);
      if i :| 0 <= i < |pages[1..]| && p in pages[1..][i].data {
        assert p in pages[i + 1].data;
      }
      if i :| 0 <= i < |pages| && p in pages[i].data {
        if i > 0 {
          assert p in pages[1..][i - 1].data;
        }
      }
    }
  }

  /** A row that two walks show, over tables in which it never changes hands, is of one organization. */
  lemma OrganizationsShareNothing(
    tables: seq<Table>, org: nat, q: Query, tables': seq<Table>, org': nat, q': Query, p: Position)
    requires Limit(q) >= 1 && Limit(q') >= 1
    requires forall t: Table, t': Table ::
      t in tables && t' in tables' && p.id in t && p.id in t' ==> t[p.id].org == t'[p.id].org
    requires p in Rows(Walk(tables, org, q)) && p in Rows(Walk(tables', org', q'))
    ensures org == org'
  {
    RowIsOnAPage(Walk(tables, org, q), p);
    RowIsOnAPage(Walk(tables', org', q'), p);
    var i :| 0 <= i < |Walk(tables, org, q)| && p in Walk(tables, org, q)[i].data;
    var j :| 0 <= j < |Walk(tables', org', q')| && p in Walk(tables', org', q')[j].data;
    WalkShowsOnlyTheAsked(tables, org, q, i, p);
    WalkShowsOnlyTheAsked(tables', org', q', j, p);
    assert tables[i] in tables && tables'[j] in tables';
  }

  // ----- the cursor as text -------------------------------------------------------------------

  /** The text under the base64url: the ISO time, a bar, the id. */
  function EncodeCursor(iso: string, id: string): string {
    iso + "|" + id
  }

  /** The position of the first bar, or the length of the text. */
  function Bar(text: string): (i: nat)
    ensures i <= |text|
  {
    if text == "" || text[0] == '|' then 0 else 1 + Bar(text[1..])
  }

  lemma {:induction false} BarAt(before: string, after: string)
    requires '|' !in before
    ensures Bar(before + "|" + after) == |before|
  {
    if before == "" {
    } else {
      assert (before + "|" + after)[1..] == before[1..] + "|" + after;
      BarAt(before[1..], after);
    }
  }

  lemma {:induction false} BarOf(text: string)
    ensures Bar(text) == |text| <==> '|' !in text
    ensures '|' !in text[..Bar(text)]
  {
    if text == "" || text[0] == '|' {
    } else {
      BarOf(text[1..]);
      assert text[..Bar(text)] == [text[0]] + text[1..][..Bar(text[1..])];
    }
  }

  /** Splitting at bars and keeping two parts; None is the malformed-cursor error. */
  function DecodeCursor(isDate: string -> bool, text: string): Option<(string, string)> {
    var i := Bar(text);
    if i == |text| then None
    else
      var rest := text[i + 1..];
      var id := rest[..Bar(rest)];
      if id == "" || !isDate(text[..i]) then None else Some((text[..i], id))
  }

  /** A cursor decodes to what was encoded exactly when the id is neither empty nor holds a bar. */
  lemma CursorRoundTrip(isDate: string -> bool, iso: string, id: string)
    requires isDate(iso) && '|' !in iso
    ensures DecodeCursor(isDate, EncodeCursor(iso, id)) == Some((iso, id)) <==> id != "" && '|' !in id
  {
    var text := EncodeCursor(iso, id);
    BarAt(iso, id);
    BarOf(id);
    assert text[..|iso|] == iso && text[|iso| + 1..] == id;
    assert '|' !in id ==> id[..Bar(id)] == id;
  }
}
